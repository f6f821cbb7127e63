/** Safety over whole runs of the engine, with any number of interleaved sockets. */
module Runs {
  import opened Basics
  import opened Protocol
  import Persistence
  import opened Signing
  import opened DeviceRegistry
  import opened Pairing
  import opened ProfileStore
  import opened Sessions
  import opened Engines
  import opened Systems

  /** `ss[i + 1]` is what step `ls[i]` makes of `ss[i]`, from a freshly loaded engine. */
  ghost predicate IsRun(h: Host, ss: seq<System>, ls: seq<Label>) {
    && |ss| == |ls| + 1
    && Initial(h, ss[0])
    && (forall i :: 0 <= i < |ls| ==> Enabled(ss[i], ls[i]))
    && forall i :: 0 <= i < |ls| ==> StepAt(h, ss, ls, i)
  }

  ghost predicate StepAt(h: Host, ss: seq<System>, ls: seq<Label>, i: nat)
    requires i < |ls| && |ss| == |ls| + 1
  {
    Enabled(ss[i], ls[i]) && ss[i + 1] == Step(h, ss[i], ls[i])
  }

  // The inductive invariant.

  predicate LiveDeck(s: System, k: nat, id: Text) {
    k in s.sockets && s.sockets[k].session.state == Ready(Deck, Some(id))
  }

  ghost predicate SomeLiveDeck(s: System, id: Text) {
    exists k :: LiveDeck(s, k, id)
  }

  /** A Ready deck always names its device; an admin never has one. */
  predicate WellShaped(st: State) {
    st.Ready? ==> (st.role == Deck <==> st.device.Some?)
  }

  /**
   * Every id in `connected` belongs to a live socket that is Ready as that device; the registry and
   * the store keep their promises; socket numbers are never reused.
   */
  ghost predicate Inv(h: Host, s: System) {
    && (forall k :: k in s.sockets ==> k < s.nextSocket && s.sockets[k].cursor <= |s.engine.published|)
    && (forall k :: k in s.sockets ==> WellShaped(s.sockets[k].session.state))
    && (forall id :: id in s.engine.connected ==> SomeLiveDeck(s, id))
    && RegistryOk(h.crypto, s.engine.devices)
    && StoreOk(s.engine.store)
  }

  lemma FrameKeepsConnected(h: Host, s: System, l: Label)
    requires Enabled(s, l) && l.Frame? && l.envelope.Some? && Inv(h, s)
    ensures var t := Step(h, s, l); forall id :: id in t.engine.connected ==> SomeLiveDeck(t, id)
  {
    var t := Step(h, s, l);
    RouteConnected(h, s, l);
    RouteSession(h, s, l, l.socket);
    forall id | id in t.engine.connected ensures SomeLiveDeck(t, id) {
      if Handle(h, s, l).session.state == Ready(Deck, Some(id)) {
        assert LiveDeck(t, l.socket, id);
      } else {
        var k :| LiveDeck(s, k, id);
        assert LiveDeck(t, k, id);
      }
    }
  }

  /** Closing any socket that names a device, Ready or not, forgets that device; the others stay witnessed. */
  lemma CloseKeepsConnected(h: Host, s: System, l: Label)
    requires Enabled(s, l) && l.Close? && Inv(h, s)
    ensures var t := Step(h, s, l); forall id :: id in t.engine.connected ==> SomeLiveDeck(t, id)
  {
    var t := Step(h, s, l);
    forall id | id in t.engine.connected ensures SomeLiveDeck(t, id) {
      var k :| LiveDeck(s, k, id);
      assert s.sockets[l.closing].session.DeviceOf() != Some(id);
      assert LiveDeck(t, k, id);
    }
  }

  lemma OtherStepsKeepConnected(h: Host, s: System, l: Label)
    requires Enabled(s, l) && !l.Frame? && !l.Close? && Inv(h, s)
    ensures var t := Step(h, s, l); forall id :: id in t.engine.connected ==> SomeLiveDeck(t, id)
  {
    var t := Step(h, s, l);
    forall id | id in t.engine.connected ensures SomeLiveDeck(t, id) {
      var k :| LiveDeck(s, k, id);
      assert LiveDeck(t, k, id);
    }
  }

  lemma FrameKeepsInv(h: Host, s: System, l: Label)
    requires h.crypto.RoundTrips() && Inv(h, s) && Enabled(s, l) && l.Frame? && l.envelope.Some?
    ensures Inv(h, Step(h, s, l))
  {
    RouteRegistry(h, s, l);
    RouteStore(h, s, l);
    PublishedGrows(h, s, l);
    FrameKeepsConnected(h, s, l);
    RouteSession(h, s, l, l.socket);
  }

  lemma StepKeepsInv(h: Host, s: System, l: Label)
    requires h.crypto.RoundTrips() && Inv(h, s) && Enabled(s, l)
    ensures Inv(h, Step(h, s, l))
  {
    if l.Frame? && l.envelope.Some? {
      FrameKeepsInv(h, s, l);
    } else if l.Close? {
      CloseKeepsConnected(h, s, l);
    } else if !l.Frame? {
      OtherStepsKeepConnected(h, s, l);
    }
  }

  /** In every reachable state the invariant holds. */
  lemma {:induction false} AlwaysInv(h: Host, ss: seq<System>, ls: seq<Label>, n: nat)
    requires h.crypto.RoundTrips() && IsRun(h, ss, ls) && n < |ss|
    ensures Inv(h, ss[n])
  {
    if n > 0 {
      AlwaysInv(h, ss, ls, n - 1);
      assert StepAt(h, ss, ls, n - 1);
      StepKeepsInv(h, ss[n - 1], ls[n - 1]);
    }
  }

  // What a step can do to one socket.

  /** A socket after a step was opened by it, or was there before and moved as a session may. */
  ghost predicate SocketMove(h: Host, s: System, l: Label, t: System, k: nat)
    requires k in t.sockets
  {
    if k in s.sockets then
      && SessionMove(h, s, l, k, t.sockets[k].session)
      && s.sockets[k].cursor <= t.sockets[k].cursor
    else
      && l.Open? && k == s.nextSocket
      && t.sockets[k] == Socket(Opened(l.loopback), |s.engine.published|)
  }

  lemma StepMovesSocket(h: Host, s: System, l: Label, k: nat)
    requires Enabled(s, l) && k in Step(h, s, l).sockets
    requires k in s.sockets ==> k < s.nextSocket
    ensures SocketMove(h, s, l, Step(h, s, l), k)
    ensures s.nextSocket <= Step(h, s, l).nextSocket
  {
    if l.Frame? && l.envelope.Some? && l.socket == k {
      RouteSession(h, s, l, k);
    }
  }

  /** The same along a run; nothing below needs the step function itself. */
  lemma MoveAt(h: Host, ss: seq<System>, ls: seq<Label>, i: nat, k: nat)
    requires h.crypto.RoundTrips() && IsRun(h, ss, ls) && i < |ls| && k in ss[i + 1].sockets
    ensures SocketMove(h, ss[i], ls[i], ss[i + 1], k)
    ensures k < ss[i + 1].nextSocket
  {
    AlwaysInv(h, ss, ls, i);
    AlwaysInv(h, ss, ls, i + 1);
    assert StepAt(h, ss, ls, i);
    StepMovesSocket(h, ss[i], ls[i], k);
  }

  lemma {:induction false} NumbersGrow(h: Host, ss: seq<System>, ls: seq<Label>, n: nat, m: nat)
    requires IsRun(h, ss, ls) && n <= m < |ss|
    ensures ss[n].nextSocket <= ss[m].nextSocket
  {
    if n < m {
      NumbersGrow(h, ss, ls, n, m - 1);
      assert StepAt(h, ss, ls, m - 1);
    }
  }

  /** Numbers are not reused: a socket live at both ends was live in between. */
  lemma {:induction false} StillLive(h: Host, ss: seq<System>, ls: seq<Label>, n: nat, j: nat, m: nat, k: nat)
    requires h.crypto.RoundTrips() && IsRun(h, ss, ls) && n <= j <= m < |ss|
    requires k in ss[n].sockets && k in ss[m].sockets
    ensures k in ss[j].sockets
    decreases m - j
  {
    if j < m {
      StillLive(h, ss, ls, n, j + 1, m, k);
      AlwaysInv(h, ss, ls, n);
      NumbersGrow(h, ss, ls, n, j);
      MoveAt(h, ss, ls, j, k);
    }
  }

  /** Once a socket is Ready, its role and device never change while it lives. */
  lemma {:induction false} ReadyForever(h: Host, ss: seq<System>, ls: seq<Label>, n: nat, m: nat, k: nat)
    requires h.crypto.RoundTrips() && IsRun(h, ss, ls) && n <= m < |ss|
    requires k in ss[n].sockets && ss[n].sockets[k].session.IsReady() && k in ss[m].sockets
    ensures ss[m].sockets[k].session.state == ss[n].sockets[k].session.state
  {
    if n < m {
      StillLive(h, ss, ls, n, m - 1, m, k);
      ReadyForever(h, ss, ls, n, m - 1, k);
      MoveAt(h, ss, ls, m - 1, k);
    }
  }

  // Nonces.

  /** A socket awaiting a signature got its nonce from one issuing step of its own, and has awaited it ever since. */
  lemma {:induction false} ChallengeOrigin(h: Host, ss: seq<System>, ls: seq<Label>, n: nat, k: nat) returns (m: nat)
    requires h.crypto.RoundTrips() && IsRun(h, ss, ls) && n < |ss|
    requires k in ss[n].sockets && ss[n].sockets[k].session.state.AwaitingAuth?
    ensures var st := ss[n].sockets[k].session.state;
            && m < n && Issues(h, ss[m], ls[m], k, st.deviceId, st.nonce)
            && forall j :: m < j <= n ==> k in ss[j].sockets && ss[j].sockets[k].session.state == st
    decreases n
  {
    assert n > 0;
    m := n - 1;
    var st := ss[n].sockets[k].session.state;
    MoveAt(h, ss, ls, m, k);
    if ss[m].sockets[k].session.state == st {
      m := ChallengeOrigin(h, ss, ls, n - 1, k);
    }
  }

  /** The step issues a challenge on some socket; the nonce it draws is `l.world.nonce`. */
  predicate IssuesSome(h: Host, s: System, l: Label) {
    && l.Frame? && l.envelope.Some?
    && l.envelope.value.d.hello.Some? && l.envelope.value.d.hello.value.deviceId.Some?
    && l.world.nonce.Some?
    && Issues(h, s, l, l.socket, l.envelope.value.d.hello.value.deviceId.value, l.world.nonce.value)
  }

  /** The operating system never hands out one nonce twice. */
  ghost predicate FreshNonces(h: Host, ss: seq<System>, ls: seq<Label>)
    requires IsRun(h, ss, ls)
  {
    forall i, j :: (0 <= i < j < |ls| && IssuesSome(h, ss[i], ls[i]) && IssuesSome(h, ss[j], ls[j]))
                   ==> ls[i].world.nonce != ls[j].world.nonce
  }

  /** The bytes an accepted `session.auth` was checked against. */
  function CheckedMessage(h: Host, s: System, l: Label): seq<byte>
    requires l.Frame? && l.socket in s.sockets && s.sockets[l.socket].session.state.AwaitingAuth?
  {
    var st := s.sockets[l.socket].session.state;
    SessionAuthMessage(st.nonce, st.deviceId, h.hostId)
  }

  /** An accepted `session.auth` proved the awaited challenge, and left the socket Ready. */
  lemma AcceptedAt(h: Host, ss: seq<System>, ls: seq<Label>, i: nat)
    requires IsRun(h, ss, ls) && i < |ls| && Accepts(h, ss[i], ls[i])
    ensures var st := ss[i].sockets[ls[i].socket].session.state;
            && st.AwaitingAuth?
            && Proves(h, ss[i], ls[i], ls[i].socket, st.deviceId, st.nonce)
    ensures ls[i].socket in ss[i + 1].sockets && ss[i + 1].sockets[ls[i].socket].session.IsReady()
  {
    assert StepAt(h, ss, ls, i);
    AuthSession(h, ss[i], ls[i], ls[i].socket);
  }

  /**
   * Replay. However sockets interleave, an accepted `session.auth` verified exactly the domain, the
   * latest nonce issued to that socket, its device id and this host's id; and no two accepted ones
   * ever spend the same nonce or check the same bytes.
   */
  lemma NonceSpentOnce(h: Host, ss: seq<System>, ls: seq<Label>, i: nat, j: nat)
    requires h.crypto.RoundTrips() && IsRun(h, ss, ls) && FreshNonces(h, ss, ls)
    requires i < j < |ls| && Accepts(h, ss[i], ls[i]) && Accepts(h, ss[j], ls[j])
    ensures var si, sj := ss[i].sockets[ls[i].socket].session.state, ss[j].sockets[ls[j].socket].session.state;
            && si.AwaitingAuth? && sj.AwaitingAuth?
            && Proves(h, ss[i], ls[i], ls[i].socket, si.deviceId, si.nonce)
            && Proves(h, ss[j], ls[j], ls[j].socket, sj.deviceId, sj.nonce)
            && si.nonce != sj.nonce
            && CheckedMessage(h, ss[i], ls[i]) != CheckedMessage(h, ss[j], ls[j])
  {
    var ki, kj := ls[i].socket, ls[j].socket;
    AcceptedAt(h, ss, ls, i);
    AcceptedAt(h, ss, ls, j);
    var si, sj := ss[i].sockets[ki].session.state, ss[j].sockets[kj].session.state;
    var mi := ChallengeOrigin(h, ss, ls, i, ki);
    var mj := ChallengeOrigin(h, ss, ls, j, kj);
    assert IssuesSome(h, ss[mi], ls[mi]) && IssuesSome(h, ss[mj], ls[mj]);
    assert si.nonce == sj.nonce ==> mi == mj;
    if CheckedMessage(h, ss[i], ls[i]) == CheckedMessage(h, ss[j], ls[j]) {
      SessionMessageInjective(si.nonce, si.deviceId, h.hostId, sj.nonce, sj.deviceId, h.hostId);
    }
  }

  // Roles.

  /** An admin socket is one whose loopback peer presented the admin token. */
  lemma {:induction false} AdminOrigin(h: Host, ss: seq<System>, ls: seq<Label>, n: nat, k: nat) returns (m: nat)
    requires h.crypto.RoundTrips() && IsRun(h, ss, ls) && n < |ss|
    requires k in ss[n].sockets && ss[n].sockets[k].session.RoleOf() == Some(Admin)
    ensures m < n && PresentsToken(h, ss[m], ls[m], k)
    ensures ss[n].sockets[k].session.state == Ready(Admin, None)
    decreases n
  {
    assert n > 0;
    m := n - 1;
    MoveAt(h, ss, ls, m, k);
    if ss[m].sockets[k].session.state == ss[n].sockets[k].session.state {
      m := AdminOrigin(h, ss, ls, n - 1, k);
    }
  }

  /**
   * A deck socket for `id` is one that was challenged as `id`, and then signed that very challenge
   * with the key registered for `id` at the moment of signing.
   */
  lemma {:induction false} DeckOrigin(h: Host, ss: seq<System>, ls: seq<Label>, n: nat, k: nat, id: Text)
    returns (i: nat, m: nat, nonce: Nonce)
    requires h.crypto.RoundTrips() && IsRun(h, ss, ls) && n < |ss|
    requires LiveDeck(ss[n], k, id)
    ensures i < m < n && Issues(h, ss[i], ls[i], k, id, nonce) && Proves(h, ss[m], ls[m], k, id, nonce)
    decreases n
  {
    assert n > 0;
    m := n - 1;
    MoveAt(h, ss, ls, m, k);
    if ss[m].sockets[k].session.state == ss[n].sockets[k].session.state {
      i, m, nonce := DeckOrigin(h, ss, ls, n - 1, k, id);
    } else {
      nonce := ss[m].sockets[k].session.state.nonce;
      i := ChallengeOrigin(h, ss, ls, m, k);
    }
  }

  /** Whether the frame gets past the capability check to a handler. */
  predicate ReachesHandler(s: System, l: Label) {
    && l.Frame? && l.socket in s.sockets && l.envelope.Some?
    && l.envelope.value.v == PROTOCOL_VERSION
    && Authorize(l.envelope.value.op, s.sockets[l.socket].session).Ok?
  }

  /**
   * Each of the ten handlers reserved for the panel, whenever it runs, was called by a loopback
   * peer that had presented the admin token.
   */
  lemma AdminHandlersNeedToken(h: Host, ss: seq<System>, ls: seq<Label>, n: nat) returns (m: nat)
    requires h.crypto.RoundTrips() && IsRun(h, ss, ls) && n < |ls|
    requires ReachesHandler(ss[n], ls[n]) && ls[n].envelope.value.op.Known?
    requires ls[n].envelope.value.op.op in AdminOps()
    ensures m < n && PresentsToken(h, ss[m], ls[m], ls[n].socket)
  {
    var s := ss[n].sockets[ls[n].socket].session;
    if s.RoleOf() == Some(Deck) { DeckGate(ls[n].envelope.value.op, s); }
    if !s.IsReady() { AnswersBeforeAuth(ls[n].envelope.value.op, s); }
    m := AdminOrigin(h, ss, ls, n, ls[n].socket);
  }

  lemma AdminEffect(h: Host, s: System, l: Label)
    requires Enabled(s, l)
    requires var e, f := s.engine, Step(h, s, l).engine;
             || (exists id :: id in e.devices && id !in f.devices)
             || (f.window.Some? && f.window != e.window)
             || (f.window == None && e.window.Some? && !Pairs(h, s, l))
             || f.store.profiles != e.store.profiles
    ensures l.Frame? && l.socket in s.sockets && s.sockets[l.socket].session.RoleOf() == Some(Admin)
  {
    RouteRegistry(h, s, l);
    RouteWindow(h, s, l);
    RouteStore(h, s, l);
  }

  /**
   * The same, read off the effects alone: whatever step removes a device, opens a pairing window,
   * closes one without a device having paired, or changes a stored layout was asked for by a socket
   * whose loopback peer had presented the token.
   */
  lemma AdminEffectsNeedToken(h: Host, ss: seq<System>, ls: seq<Label>, n: nat) returns (m: nat)
    requires h.crypto.RoundTrips() && IsRun(h, ss, ls) && n < |ls|
    requires var e, f := ss[n].engine, ss[n + 1].engine;
             || (exists id :: id in e.devices && id !in f.devices)
             || (f.window.Some? && f.window != e.window)
             || (f.window == None && e.window.Some? && !Pairs(h, ss[n], ls[n]))
             || f.store.profiles != e.store.profiles
    ensures ls[n].Frame? && m < n && PresentsToken(h, ss[m], ls[m], ls[n].socket)
  {
    assert StepAt(h, ss, ls, n);
    AdminEffect(h, ss[n], ls[n]);
    m := AdminOrigin(h, ss, ls, n, ls[n].socket);
  }

  // Pairing.

  lemma StepWindow(h: Host, s: System, l: Label)
    requires Enabled(s, l)
    ensures var before, after := s.engine.window, Step(h, s, l).engine.window;
            || after == before
            || (after == None && (AsksAsAdmin(s, l, PairCancel) || Pairs(h, s, l)))
            || (after.Some? && OpensWindow(s, l, after.value))
  {
    if l.Frame? && l.envelope.Some? {
      RouteWindow(h, s, l);
    }
  }

  /** The window open now was opened by one admin step, and has stood unchanged since. */
  lemma {:induction false} WindowOrigin(h: Host, ss: seq<System>, ls: seq<Label>, n: nat) returns (m: nat)
    requires IsRun(h, ss, ls) && n < |ss| && ss[n].engine.window.Some?
    ensures m < n && OpensWindow(ss[m], ls[m], ss[n].engine.window.value)
    ensures forall j :: m < j <= n ==> ss[j].engine.window == ss[n].engine.window
    decreases n
  {
    assert n > 0;
    m := n - 1;
    if ss[m].engine.window == ss[n].engine.window {
      m := WindowOrigin(h, ss, ls, n - 1);
    } else {
      assert StepAt(h, ss, ls, m);
      StepWindow(h, ss[m], ls[m]);
    }
  }

  /**
   * One device per window: between any two successful `pair.request`s an admin opened a new window,
   * and the later one used the code of that new window.
   */
  lemma OneSuccessPerWindow(h: Host, ss: seq<System>, ls: seq<Label>, i: nat, j: nat) returns (w: nat)
    requires IsRun(h, ss, ls) && i < j < |ls| && Pairs(h, ss[i], ls[i]) && Pairs(h, ss[j], ls[j])
    ensures i < w < j && ss[j].engine.window.Some?
    ensures OpensWindow(ss[w], ls[w], ss[j].engine.window.value)
    ensures ls[j].envelope.value.d.pair.Some?
    ensures ls[w].world.otp == Some(ls[j].envelope.value.d.pair.value.code)
  {
    assert StepAt(h, ss, ls, i) && StepAt(h, ss, ls, j);
    PairingClosesWindow(h, ss[i], ls[i]);
    PairingClosesWindow(h, ss[j], ls[j]);
    w := WindowOrigin(h, ss, ls, j);
    assert ss[i + 1].engine.window == None;
  }

  /** The step is a pair request, not yet signed in, that window `w` would let through with `key` at this moment. */
  ghost predicate WouldRegister(h: Host, s: System, l: Label, w: Window, key: seq<byte>) {
    && l.Frame? && Asks(s, l, l.socket, PairRequest)
    && l.envelope.value.v == PROTOCOL_VERSION
    && !s.sockets[l.socket].session.IsReady()
    && l.envelope.value.d.pair.Some?
    && Proved(h.crypto, Some(w), s.clock, l.envelope.value.d.pair.value, key)
  }

  lemma {:induction false} WindowLeftAlone(ss: seq<System>, i: nat, j: nat)
    requires i <= j < |ss| && forall t :: i <= t < j ==> ss[t + 1].engine.window == ss[t].engine.window
    ensures ss[j].engine.window == ss[i].engine.window
  {
    if i < j { WindowLeftAlone(ss, i, j - 1); }
  }

  /**
   * Exactly when one window admits a second device, requests taken one at a time. A first request
   * registered its key at step `i` under window `w`; nothing else touched the window until step
   * `j`, whatever else happened. A second request that `w` would still let through is let through
   * there if and only if the registry could not be written for the first.
   */
  lemma SecondDeviceAdmitted(h: Host, ss: seq<System>, ls: seq<Label>, i: nat, j: nat,
                             w: Window, key1: seq<byte>, key2: seq<byte>)
    requires IsRun(h, ss, ls) && i < j < |ls|
    requires ss[i].engine.window == Some(w) && Registers(h, ss[i], ls[i], key1)
    requires forall t :: i < t < j ==> ss[t + 1].engine.window == ss[t].engine.window
    requires WouldRegister(h, ss[j], ls[j], w, key2)
    ensures Registers(h, ss[j], ls[j], key2) <==> ls[i].world.write.outcome != Persistence.Persisted
  {
    assert StepAt(h, ss, ls, i);
    PairRequestRegisters(h, ss[i], ls[i], key1);
    WindowLeftAlone(ss, i + 1, j);
  }

  /**
   * Two registrations anywhere in a run: the registry could not be written for the earlier one, or
   * an admin opened the later one's window in between.
   */
  lemma TwoRegistrationsExplained(h: Host, ss: seq<System>, ls: seq<Label>, i: nat, j: nat,
                                  key1: seq<byte>, key2: seq<byte>)
    returns (w: nat)
    requires IsRun(h, ss, ls) && i < j < |ls|
    requires Registers(h, ss[i], ls[i], key1) && Registers(h, ss[j], ls[j], key2)
    ensures || ls[i].world.write.outcome != Persistence.Persisted
            || (i < w < j && OpensWindow(ss[w], ls[w], ss[j].engine.window.value))
  {
    assert StepAt(h, ss, ls, i);
    PairRequestRegisters(h, ss[i], ls[i], key1);
    w := WindowOrigin(h, ss, ls, j);
  }

  /** The bytes a pair request's proof is checked against. */
  function CheckedProof(l: Label, key: seq<byte>): seq<byte>
    requires l.Frame? && l.envelope.Some? && l.envelope.value.d.pair.Some?
  {
    PairProofMessage(l.envelope.value.d.pair.value.code, key)
  }

  /**
   * Replay of a pairing proof: two successful requests check the same bytes only if they register
   * the same key and the two windows, opened by two different steps, drew the same code.
   */
  lemma PairProofReplay(h: Host, ss: seq<System>, ls: seq<Label>, i: nat, j: nat)
    returns (wi: nat, wj: nat, key1: seq<byte>, key2: seq<byte>)
    requires IsRun(h, ss, ls) && i < j < |ls| && Pairs(h, ss[i], ls[i]) && Pairs(h, ss[j], ls[j])
    ensures wi < i < wj < j && Registers(h, ss[i], ls[i], key1) && Registers(h, ss[j], ls[j], key2)
    ensures ss[i].engine.window.Some? && OpensWindow(ss[wi], ls[wi], ss[i].engine.window.value)
    ensures ss[j].engine.window.Some? && OpensWindow(ss[wj], ls[wj], ss[j].engine.window.value)
    ensures CheckedProof(ls[i], key1) == CheckedProof(ls[j], key2)
            <==> key1 == key2 && ls[wi].world.otp == ls[wj].world.otp
  {
    key1 := RegisteredKey(h, ss[i], ls[i]);
    key2 := RegisteredKey(h, ss[j], ls[j]);
    wi := WindowOrigin(h, ss, ls, i);
    wj := OneSuccessPerWindow(h, ss, ls, i, j);
    var c1, c2 := ls[i].envelope.value.d.pair.value.code, ls[j].envelope.value.d.pair.value.code;
    if CheckedProof(ls[i], key1) == CheckedProof(ls[j], key2) {
      PairMessageInjective(c1, key1, c2, key2);
    }
  }

  /**
   * No revocation closes or demotes a socket, of the revoked device or any other: afterwards there
   * is a live socket for a device exactly if there was one before.
   */
  lemma RevokeClosesNothing(h: Host, s: System, l: Label)
    requires Enabled(s, l) && AsksAsAdmin(s, l, PairRevoke)
    ensures Step(h, s, l).sockets.Keys == s.sockets.Keys
    ensures forall k :: k in s.sockets ==> Step(h, s, l).sockets[k].session.state == s.sockets[k].session.state
    ensures forall id :: SomeLiveDeck(Step(h, s, l), id) <==> SomeLiveDeck(s, id)
  {
    OtherSession(h, s, l, l.socket);
    forall id ensures SomeLiveDeck(Step(h, s, l), id) <==> SomeLiveDeck(s, id) {
      if SomeLiveDeck(s, id) {
        var k :| LiveDeck(s, k, id);
        assert LiveDeck(Step(h, s, l), k, id);
      }
      if SomeLiveDeck(Step(h, s, l), id) {
        var k :| LiveDeck(Step(h, s, l), k, id);
        assert LiveDeck(s, k, id);
      }
    }
  }

  /**
   * What a revocation does guarantee, over runs: for as long as a device is out of the registry no
   * socket becomes Ready as it. Whatever socket is Ready as it then was so at the revocation.
   */
  lemma {:induction false} RevokedGainsNoSocket(h: Host, ss: seq<System>, ls: seq<Label>, n: nat, m: nat,
                                                k: nat, id: Text)
    requires h.crypto.RoundTrips() && IsRun(h, ss, ls) && n <= m < |ss|
    requires forall j :: n <= j < m ==> id !in ss[j].engine.devices
    requires LiveDeck(ss[m], k, id)
    ensures LiveDeck(ss[n], k, id)
  {
    if n < m {
      MoveAt(h, ss, ls, m - 1, k);
      assert LiveDeck(ss[m - 1], k, id);
      RevokedGainsNoSocket(h, ss, ls, n, m - 1, k, id);
    }
  }

  /** The entry for `id` with this public key was registered by the step. */
  ghost predicate EntryMade(h: Host, s: System, l: Label, id: Text, pubkey: Text, key: seq<byte>) {
    Registers(h, s, l, key) && id == DeviceId(h.crypto, key) && pubkey == h.crypto.encode64(key)
  }

  /** After step `i` the entry for `id`, if there is one, was there before or was made by that step. */
  ghost predicate Accounted(h: Host, ss: seq<System>, ls: seq<Label>, id: Text, i: nat)
    requires i < |ls| && |ss| == |ls| + 1
  {
    var before, after := ss[i].engine.devices, ss[i + 1].engine.devices;
    id in after ==>
      || (id in before && after[id].pubkey == before[id].pubkey)
      || (exists key :: EntryMade(h, ss[i], ls[i], id, after[id].pubkey, key))
  }

  lemma {:induction false} TraceEntry(h: Host, ss: seq<System>, ls: seq<Label>, n: nat, id: Text)
    returns (paired: bool, m: nat, key: seq<byte>)
    requires |ss| == |ls| + 1 && n < |ss| && id in ss[n].engine.devices
    requires forall i :: 0 <= i < n ==> Accounted(h, ss, ls, id, i)
    ensures !paired ==> id in ss[0].engine.devices
    ensures !paired ==> ss[0].engine.devices[id].pubkey == ss[n].engine.devices[id].pubkey
    ensures paired ==> m < n && EntryMade(h, ss[m], ls[m], id, ss[n].engine.devices[id].pubkey, key)
    decreases n
  {
    paired, m, key := false, 0, [];
    if n > 0 {
      var before, after := ss[n - 1].engine.devices, ss[n].engine.devices;
      assert Accounted(h, ss, ls, id, n - 1);
      if id in before && after[id].pubkey == before[id].pubkey {
        paired, m, key := TraceEntry(h, ss, ls, n - 1, id);
      } else {
        paired, m := true, n - 1;
        key :| EntryMade(h, ss[m], ls[m], id, after[id].pubkey, key);
      }
    }
  }

  lemma DeviceStep(h: Host, s: System, l: Label, id: Text) returns (here: bool, key: seq<byte>)
    requires h.crypto.RoundTrips() && Enabled(s, l) && id in Step(h, s, l).engine.devices
    ensures var after := Step(h, s, l).engine.devices;
            if here then Registers(h, s, l, key) && id == DeviceId(h.crypto, key)
                         && after[id].pubkey == h.crypto.encode64(key)
            else id in s.engine.devices && after[id].pubkey == s.engine.devices[id].pubkey
  {
    here, key := false, [];
    if l.Frame? && l.envelope.Some? {
      RouteRegistry(h, s, l);
      var after := Handle(h, s, l).engine.devices;
      assert EntryExplained(h, s, l, after, id);
      if !(id in s.engine.devices && after[id].pubkey == s.engine.devices[id].pubkey) {
        here := true;
        key :| Registers(h, s, l, key) && id == DeviceId(h.crypto, key) && after[id].pubkey == h.crypto.encode64(key);
      }
    }
  }

  lemma StepAccounts(h: Host, ss: seq<System>, ls: seq<Label>, id: Text, i: nat)
    requires h.crypto.RoundTrips() && IsRun(h, ss, ls) && i < |ls|
    ensures Accounted(h, ss, ls, id, i)
  {
    assert StepAt(h, ss, ls, i);
    if id in ss[i + 1].engine.devices {
      var here, key := DeviceStep(h, ss[i], ls[i], id);
      assert here ==> EntryMade(h, ss[i], ls[i], id, ss[i + 1].engine.devices[id].pubkey, key);
    }
  }

  /**
   * Every registered device was there when the engine loaded, or was registered by a `pair.request`
   * that proved possession of exactly the stored key under the code of the window open at that step.
   */
  lemma DeviceOrigin(h: Host, ss: seq<System>, ls: seq<Label>, n: nat, id: Text)
    returns (paired: bool, m: nat, key: seq<byte>)
    requires h.crypto.RoundTrips() && IsRun(h, ss, ls) && n < |ss| && id in ss[n].engine.devices
    ensures !paired ==> id in ss[0].engine.devices
    ensures !paired ==> ss[0].engine.devices[id].pubkey == ss[n].engine.devices[id].pubkey
    ensures paired ==> m < n && EntryMade(h, ss[m], ls[m], id, ss[n].engine.devices[id].pubkey, key)
  {
    forall i: nat | i < n ensures Accounted(h, ss, ls, id, i) {
      StepAccounts(h, ss, ls, id, i);
    }
    paired, m, key := TraceEntry(h, ss, ls, n, id);
  }

  /** A registered key is the key the entry loads. */
  lemma RegisteredKeyLoads(h: Host, s: System, l: Label, key: seq<byte>, device: StoredDevice)
    requires h.crypto.RoundTrips() && Registers(h, s, l, key) && device.pubkey == h.crypto.encode64(key)
    ensures LoadKey(h.crypto, device) == Ok(key)
  {
    assert h.crypto.decode64(h.crypto.encode64(key)) == Some(key);
  }

  /** Only an admin's `pair.revoke` naming it takes a device out of the registry. */
  lemma OnlyRevokeUnpairs(h: Host, ss: seq<System>, ls: seq<Label>, n: nat, id: Text)
    requires IsRun(h, ss, ls) && n < |ls|
    requires id in ss[n].engine.devices && id !in ss[n + 1].engine.devices
    ensures AsksAsAdmin(ss[n], ls[n], PairRevoke) && ls[n].envelope.value.d.deviceRef == Some(id)
  {
    assert StepAt(h, ss, ls, n);
    assert ls[n].Frame? && ls[n].envelope.Some?;
    RouteRegistry(h, ss[n], ls[n]);
  }

  /**
   * The whole chain of trust. A socket that is Ready as a device the engine did not load with got
   * there by signing its own challenge with a key `key`; that very key had been registered by a
   * pair request proving possession of it under the code of a window; that window had been opened
   * by an admin socket; and that socket's loopback peer had presented the admin token.
   */
  lemma ChainOfTrust(h: Host, ss: seq<System>, ls: seq<Label>, n: nat, k: nat, id: Text)
    returns (token: nat, opening: nat, pairing: nat, challenge: nat, signing: nat, key: seq<byte>, nonce: Nonce)
    requires h.crypto.RoundTrips() && IsRun(h, ss, ls) && n < |ss|
    requires LiveDeck(ss[n], k, id) && id !in ss[0].engine.devices
    ensures token < opening < pairing < signing < n && challenge < signing
    ensures ss[pairing].engine.window.Some?
    ensures OpensWindow(ss[opening], ls[opening], ss[pairing].engine.window.value)
    ensures PresentsToken(h, ss[token], ls[token], ls[opening].socket)
    ensures Registers(h, ss[pairing], ls[pairing], key) && id == DeviceId(h.crypto, key)
    ensures Issues(h, ss[challenge], ls[challenge], k, id, nonce)
    ensures Proves(h, ss[signing], ls[signing], k, id, nonce)
    ensures VerifyingKey(h.crypto, ss[signing].engine.devices, id) == Ok(key)
  {
    challenge, signing, nonce := DeckOrigin(h, ss, ls, n, k, id);
    var paired: bool;
    paired, pairing, key := DeviceOrigin(h, ss, ls, signing, id);
    RegisteredKeyLoads(h, ss[pairing], ls[pairing], key, ss[signing].engine.devices[id]);
    opening := WindowOrigin(h, ss, ls, pairing);
    token := AdminOrigin(h, ss, ls, opening, ls[opening].socket);
  }

  /** `connected` loses an id exactly when a socket naming it closes, or when its revocation is saved. */
  lemma WhatDisconnects(h: Host, s: System, l: Label, id: Text)
    requires Enabled(s, l) && id in s.engine.connected
    ensures id !in Step(h, s, l).engine.connected <==>
              || (l.Close? && IsAbout(s.sockets[l.closing].session.state, id))
              || (AsksAsAdmin(s, l, PairRevoke) && l.envelope.value.d.deviceRef == Some(id)
                  && Handle(h, s, l).answer.Ok?)
  {
    if l.Frame? && l.envelope.Some? {
      if l.envelope.value.op == Known(SessionAuth) {
        AuthEffect(h, s, l);
      } else if l.envelope.value.op != Known(PairRevoke) {
        Untouched(h, s, l);
      }
    }
  }
}
