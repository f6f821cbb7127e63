/** Pairing windows over whole runs: when they end, and what they let through until then. */
module WindowRuns {
  import opened Basics
  import opened ConstantTime
  import opened Protocol
  import opened Signing
  import opened DeviceRegistry
  import opened Pairing
  import opened Sessions
  import opened Engines
  import opened Systems
  import opened Runs
  import Persistence

  // The clock.

  /** The milliseconds the ticks among these steps add up to. */
  function Elapsed(ls: seq<Label>): nat {
    if ls == [] then 0
    else Elapsed(ls[..|ls| - 1]) + (match ls[|ls| - 1] case Tick(ms) => ms case _ => 0)
  }

  lemma StepClock(h: Host, s: System, l: Label)
    requires Enabled(s, l)
    ensures Step(h, s, l).clock == s.clock + (match l case Tick(ms) => ms case _ => 0)
  {}

  /** Time passes by ticks and by nothing else. */
  lemma {:induction false} ClockIsTicks(h: Host, ss: seq<System>, ls: seq<Label>, m: nat, n: nat)
    requires IsRun(h, ss, ls) && m <= n < |ss|
    ensures ss[n].clock == ss[m].clock + Elapsed(ls[m..n])
  {
    if m < n {
      ClockIsTicks(h, ss, ls, m, n - 1);
      assert StepAt(h, ss, ls, n - 1);
      StepClock(h, ss[n - 1], ls[n - 1]);
      assert ls[m..n][..n - m - 1] == ls[m..n - 1];
    }
  }

  // When a window ends.

  /** The step is an admin's `pair.begin` answered with a code, for this many seconds or for the default. */
  ghost predicate Begins(h: Host, s: System, l: Label, seconds: Option<nat>, code: Text) {
    && Enabled(s, l) && l.Frame? && AsksAsAdmin(s, l, PairBegin)
    && l.envelope.value.d.pairBegin == Some(seconds)
    && Handle(h, s, l).answer.Ok? && Handle(h, s, l).answer.value.WindowOpened?
    && Handle(h, s, l).answer.value.code == code
  }

  /** `pair.begin` is answered with a code exactly for 30 to 300 seconds or none given; the code is the one drawn. */
  lemma BeginAnswers(h: Host, s: System, l: Label)
    requires Enabled(s, l) && l.Frame? && AsksAsAdmin(s, l, PairBegin) && l.envelope.value.v == 1
    ensures var t, ttl, otp := Handle(h, s, l), l.envelope.value.d.pairBegin, l.world.otp;
            if ttl.None? || (ttl.value.Some? && !(30 <= ttl.value.value <= 300)) then
              t == Handled(s.engine, s.sockets[l.socket].session, Err(Wire(BadRequest)))
            else if otp.None? then t == Handled(s.engine, s.sockets[l.socket].session, Err(Fault))
            else
              var seconds := if ttl.value.Some? then ttl.value.value else 120;
              && t.answer == Ok(WindowOpened(otp.value, l.world.unixNow + seconds))
              && t.engine.window == Some(Window(otp.value, s.clock, 1000 * seconds, l.world.unixNow + seconds))
              && Begins(h, s, l, ttl.value, otp.value)
  {}

  lemma BeginOpens(h: Host, s: System, l: Label, seconds: Option<nat>, code: Text)
    requires Begins(h, s, l, seconds, code)
    ensures var w := Handle(h, s, l).engine.window;
            w.Some? && w.value.code == code && w.value.openedAt == s.clock && w.value.ttlMs == LifetimeMs(seconds)
  {
    if l.envelope.value.v == 1 { BeginAnswers(h, s, l); }
  }

  /** The step is a `pair.request` that had an effect: an Ok answer, or any change of the registry. */
  ghost predicate Takes(h: Host, s: System, l: Label) {
    && Enabled(s, l) && l.Frame? && Asks(s, l, l.socket, PairRequest)
    && (Handle(h, s, l).answer.Ok? || Handle(h, s, l).engine.devices != s.engine.devices)
  }

  lemma TakesProves(h: Host, s: System, l: Label) returns (key: seq<byte>)
    requires Takes(h, s, l)
    ensures Registers(h, s, l, key)
  {
    if exists k :: Registers(h, s, l, k) {
      key :| Registers(h, s, l, key);
    } else {
      PairRequestRefused(h, s, l);
    }
  }

  lemma OpenedWindowBegins(h: Host, s: System, l: Label, w: Window)
    requires Enabled(s, l) && OpensWindow(s, l, w) && Step(h, s, l).engine.window == Some(w)
    requires s.engine.window != Some(w)
    ensures Begins(h, s, l, l.envelope.value.d.pairBegin.value, w.code)
  {
    BeginAnswers(h, s, l);
  }

  /** The standing window was put there by a `pair.begin` answered with its code, and has stood since. */
  lemma {:induction false} StandingBegan(h: Host, ss: seq<System>, ls: seq<Label>, n: nat)
    returns (m: nat, seconds: Option<nat>)
    requires IsRun(h, ss, ls) && n < |ss| && ss[n].engine.window.Some?
    ensures m < n && Begins(h, ss[m], ls[m], seconds, ss[n].engine.window.value.code)
    ensures ss[n].engine.window.value.openedAt == ss[m].clock && ss[n].engine.window.value.ttlMs == LifetimeMs(seconds)
    ensures forall j :: m < j <= n ==> ss[j].engine.window == ss[n].engine.window
    decreases n
  {
    assert n > 0;
    m := n - 1;
    if ss[m].engine.window == ss[n].engine.window {
      m, seconds := StandingBegan(h, ss, ls, n - 1);
    } else {
      assert StepAt(h, ss, ls, m);
      StepWindow(h, ss[m], ls[m]);
      OpenedWindowBegins(h, ss[m], ls[m], ss[n].engine.window.value);
      seconds := ls[m].envelope.value.d.pairBegin.value;
    }
  }

  /**
   * A window ends on time. Whenever a `pair.request` has an effect, an admin's `pair.begin` had been
   * answered with the very code it carries, less than the seconds asked for then, or less than two
   * minutes, earlier on the clock.
   */
  lemma PairingEndsOnTime(h: Host, ss: seq<System>, ls: seq<Label>, n: nat)
    returns (m: nat, seconds: Option<nat>)
    requires IsRun(h, ss, ls) && n < |ls| && Takes(h, ss[n], ls[n])
    ensures m < n && ls[n].envelope.value.d.pair.Some?
    ensures Begins(h, ss[m], ls[m], seconds, ls[n].envelope.value.d.pair.value.code)
    ensures ss[n].clock < ss[m].clock + (match seconds case Some(t) => 1000 * t case None => 120_000)
    ensures Elapsed(ls[m..n]) < (match seconds case Some(t) => 1000 * t case None => 120_000)
  {
    var key := TakesProves(h, ss[n], ls[n]);
    m, seconds := StandingBegan(h, ss, ls, n);
    ClockIsTicks(h, ss, ls, m, n);
  }

  // What a window lets through.

  /** A request that carries this code and proves `key` under it; nothing here speaks of a window. */
  ghost predicate Convincing(h: Host, r: PairRequestBody, code: Text, key: seq<byte>) {
    && r.code == code
    && h.crypto.decode64(r.devicePubkey) == Some(key) && |key| == 32 && h.crypto.validPoint(key)
    && (exists proof ::
          && h.crypto.decode64(r.proof) == Some(proof) && |proof| == 64
          && h.crypto.verifyStrict(key, PairProofMessage(code, key), proof))
  }

  /** The step is a parseable `pair.request` of a socket still in its handshake. */
  predicate Knocks(s: System, l: Label) {
    && Enabled(s, l) && l.Frame? && Asks(s, l, l.socket, PairRequest)
    && l.envelope.value.v == 1 && !s.sockets[l.socket].session.state.Ready?
    && l.envelope.value.d.pair.Some?
  }

  lemma KnocksInTime(h: Host, s: System, l: Label, w: Window, key: seq<byte>)
    requires Knocks(s, l) && s.engine.window == Some(w) && s.clock < w.openedAt + w.ttlMs
    ensures Convincing(h, l.envelope.value.d.pair.value, w.code, key) <==> Registers(h, s, l, key)
  {}

  lemma KnocksLate(h: Host, s: System, l: Label)
    requires Knocks(s, l)
    requires s.engine.window.Some? ==> s.clock >= s.engine.window.value.openedAt + s.engine.window.value.ttlMs
    ensures Handle(h, s, l) == Handled(s.engine, s.sockets[l.socket].session, Err(Wire(PairingClosed)))
  {
    PairRequestEffect(h, s, l);
  }

  /**
   * A window is honoured to its end. An admin's `pair.begin` was answered with `code` at step `m`,
   * and nothing has touched the window since. As long as the seconds asked for have not passed, a
   * request that carries the code and proves its key registers that key, and is answered Ok exactly
   * if the registry could be written; any other request changes nothing and is refused.
   */
  lemma WindowHonoured(h: Host, ss: seq<System>, ls: seq<Label>, m: nat, n: nat, seconds: Option<nat>, code: Text)
    requires IsRun(h, ss, ls) && m < n < |ls| && Begins(h, ss[m], ls[m], seconds, code) && Knocks(ss[n], ls[n])
    requires forall t :: m < t < n ==> ss[t + 1].engine.window == ss[t].engine.window
    requires ss[n].clock < ss[m].clock + (match seconds case Some(t) => 1000 * t case None => 120_000)
    ensures forall key :: Convincing(h, ls[n].envelope.value.d.pair.value, code, key) ==>
              && Handle(h, ss[n], ls[n]).engine.devices
                 == AfterCall(h.crypto, ss[n].engine.devices, Registration(ls[n], key))
              && (Handle(h, ss[n], ls[n]).answer
                  == if ls[n].world.write.outcome == Persistence.Persisted
                     then Ok(Paired(DeviceId(h.crypto, key), h.hostId)) else Err(Fault))
    ensures (forall key :: !Convincing(h, ls[n].envelope.value.d.pair.value, code, key)) ==>
              Handle(h, ss[n], ls[n]).engine == ss[n].engine && Handle(h, ss[n], ls[n]).answer.Err?
  {
    assert StepAt(h, ss, ls, m);
    BeginOpens(h, ss[m], ls[m], seconds, code);
    WindowLeftAlone(ss, m + 1, n);
    var w := ss[n].engine.window.value;
    forall key
      ensures Convincing(h, ls[n].envelope.value.d.pair.value, code, key) <==> Registers(h, ss[n], ls[n], key)
    {
      KnocksInTime(h, ss[n], ls[n], w, key);
    }
    forall key | Convincing(h, ls[n].envelope.value.d.pair.value, code, key)
      ensures Handle(h, ss[n], ls[n]).engine.devices
              == AfterCall(h.crypto, ss[n].engine.devices, Registration(ls[n], key))
      ensures Handle(h, ss[n], ls[n]).answer
              == if ls[n].world.write.outcome == Persistence.Persisted
                 then Ok(Paired(DeviceId(h.crypto, key), h.hostId)) else Err(Fault)
    {
      PairRequestRegisters(h, ss[n], ls[n], key);
      PairAnswer(h, ss[n], ls[n], key);
    }
    if forall key :: !Convincing(h, ls[n].envelope.value.d.pair.value, code, key) {
      PairRequestRefused(h, ss[n], ls[n]);
    }
  }

  lemma PairAnswer(h: Host, s: System, l: Label, key: seq<byte>)
    requires Enabled(s, l) && l.Frame? && Registers(h, s, l, key)
    ensures Handle(h, s, l).answer == if l.world.write.outcome == Persistence.Persisted
                                      then Ok(Paired(DeviceId(h.crypto, key), h.hostId)) else Err(Fault)
  {
    PairRequestEffect(h, s, l);
    RegistersIsVerdict(h, s, l, key);
  }

  lemma {:induction false} WindowOnlyCloses(ss: seq<System>, i: nat, j: nat)
    requires i <= j < |ss|
    requires forall t :: i <= t < j ==> ss[t + 1].engine.window in {ss[t].engine.window, None}
    ensures ss[j].engine.window in {ss[i].engine.window, None}
  {
    if i < j { WindowOnlyCloses(ss, i, j - 1); }
  }

  /**
   * And not beyond. From the instant the seconds asked for have passed, every parseable request of a
   * socket still in its handshake, whatever it carries, is answered `PAIRING_CLOSED` and changes
   * nothing, until an admin opens another window.
   */
  lemma WindowOver(h: Host, ss: seq<System>, ls: seq<Label>, m: nat, n: nat, seconds: Option<nat>, code: Text)
    requires IsRun(h, ss, ls) && m < n < |ls| && Begins(h, ss[m], ls[m], seconds, code) && Knocks(ss[n], ls[n])
    requires forall t :: m < t < n ==> ss[t + 1].engine.window in {ss[t].engine.window, None}
    requires ss[n].clock >= ss[m].clock + (match seconds case Some(t) => 1000 * t case None => 120_000)
    ensures Handle(h, ss[n], ls[n])
            == Handled(ss[n].engine, ss[n].sockets[ls[n].socket].session, Err(Wire(PairingClosed)))
  {
    assert StepAt(h, ss, ls, m);
    BeginOpens(h, ss[m], ls[m], seconds, code);
    WindowOnlyCloses(ss, m + 1, n);
    KnocksLate(h, ss[n], ls[n]);
  }
}
