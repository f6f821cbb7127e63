/**
 * The same engine one lock at a time. A handler that takes several locks is several steps here, and
 * other sockets run in between.
 */
module Locks {
  import opened Basics
  import opened Protocol
  import opened DeviceRegistry
  import opened Pairing
  import opened Sessions
  import Engines
  import Persistence
  import opened ProfileStore

  /** Where a socket's task stands between two locks. */
  datatype Phase =
    | Idle
    | Marking(authenticated: Text)
    | Stamping(marked: Text)
    | Checking(seen: Option<Window>, request: PairRequestBody)
    | Proven(key: seq<byte>, proof: PairRequestBody)
    | Inserted
    | Unmarking(revoked: Text)
    | Leaving

  datatype Task = Task(session: SessionValue, phase: Phase)

  datatype Shared = Shared(
    tasks: map<nat, Task>, next: nat, devices: Devices, window: Option<Window>, connected: set<Text>, clock: nat)

  datatype Micro =
    | Connect(loopback: bool)
    | SayHello(k: nat, r: HelloRequest, entropy: Option<Nonce>)
    | VerifyAuth(k: nat, signature: Text)
    | MarkConnected(k: nat)
    | StampSeen(k: nat, now: int)
    | ReadWindow(k: nat, request: PairRequestBody)
    | CheckRequest(k: nat)
    | InsertKey(k: nat, unixNow: int, saved: bool)
    | CloseWindow(k: nat)
    | OpenPairing(k: nat, newWindow: Window)
    | CancelPairing(k: nat)
    | RevokeEntry(k: nat, id: Text, saved: bool)
    | MarkDisconnected(k: nat)
    | Leave(k: nat)
    | Forget(k: nat)
    | Elapse(ms: nat)

  predicate InPhase(s: Shared, k: nat, p: Phase) {
    k in s.tasks && s.tasks[k].phase == p
  }

  predicate IsAdmin(s: Shared, k: nat) {
    k in s.tasks && s.tasks[k].session.RoleOf() == Some(Admin)
  }

  predicate MicroEnabled(s: Shared, l: Micro) {
    match l
    case Connect(_) => true
    case SayHello(k, _, _) => InPhase(s, k, Idle)
    case VerifyAuth(k, _) => InPhase(s, k, Idle)
    case MarkConnected(k) => k in s.tasks && s.tasks[k].phase.Marking?
    case ReadWindow(k, _) => InPhase(s, k, Idle) && !s.tasks[k].session.IsReady()
    case StampSeen(k, _) => k in s.tasks && s.tasks[k].phase.Stamping?
    case CheckRequest(k) => k in s.tasks && s.tasks[k].phase.Checking?
    case InsertKey(k, _, _) => k in s.tasks && s.tasks[k].phase.Proven?
    case CloseWindow(k) => InPhase(s, k, Inserted)
    case OpenPairing(k, _) => InPhase(s, k, Idle) && IsAdmin(s, k)
    case CancelPairing(k) => InPhase(s, k, Idle) && IsAdmin(s, k)
    case RevokeEntry(k, _, _) => InPhase(s, k, Idle) && IsAdmin(s, k)
    case MarkDisconnected(k) => k in s.tasks && s.tasks[k].phase.Unmarking?
    case Leave(k) => InPhase(s, k, Idle)
    case Forget(k) => InPhase(s, k, Leaving)
    case Elapse(_) => true
  }

  function WithTask(s: Shared, k: nat, t: Task): Shared {
    s.(tasks := s.tasks[k := t])
  }

  /** What `pairing_window` hands out in this state. */
  function OpenNow(s: Shared): Option<Window> {
    if s.window.Some? && IsOpen(s.window.value, s.clock) then s.window else None
  }

  function MicroStep(h: Host, s: Shared, l: Micro): Shared
    requires MicroEnabled(s, l)
  {
    match l
    case Connect(loopback) => WithTask(s, s.next, Task(Opened(loopback), Idle)).(next := s.next + 1)
    case SayHello(k, r, entropy) =>
      WithTask(s, k, s.tasks[k].(session := Hello(s.tasks[k].session, r, Context(h, s.devices, []), entropy).session))
    case VerifyAuth(k, signature) =>
      var t := Auth(s.tasks[k].session, signature, Context(h, s.devices, []));
      if t.answer.Ok? && t.session.DeviceOf().Some?
      then WithTask(s, k, Task(t.session, Marking(t.session.DeviceOf().value)))
      else WithTask(s, k, Task(t.session, Idle))
    case MarkConnected(k) =>
      var id := s.tasks[k].phase.authenticated;
      WithTask(s, k, s.tasks[k].(phase := Stamping(id))).(connected := s.connected + {id})
    case StampSeen(k, now) =>
      WithTask(s, k, s.tasks[k].(phase := Idle))
      .(devices := AfterCall(h.crypto, s.devices, Touch(s.tasks[k].phase.marked, now)))
    case ReadWindow(k, request) =>
      WithTask(s, k, s.tasks[k].(phase := Checking(OpenNow(s), request)))
    case CheckRequest(k) =>
      var c := s.tasks[k].phase;
      (match VerifyPairRequest(h.crypto, c.seen, s.clock, c.request)
       case Err(_) => WithTask(s, k, s.tasks[k].(phase := Idle))
       case Ok(key) => WithTask(s, k, s.tasks[k].(phase := Proven(key, c.request))))
    case InsertKey(k, unixNow, saved) =>
      var p := s.tasks[k].phase;
      WithTask(s, k, s.tasks[k].(phase := if saved then Inserted else Idle))
      .(devices := AfterCall(h.crypto, s.devices, Insert(p.key, p.proof.deviceName, p.proof.platform, unixNow)))
    case CloseWindow(k) => WithTask(s, k, s.tasks[k].(phase := Idle)).(window := None)
    case OpenPairing(k, w) => s.(window := Some(w))
    case CancelPairing(k) => s.(window := None)
    case RevokeEntry(k, id, saved) =>
      WithTask(s, k, s.tasks[k].(phase := if id in s.devices && saved then Unmarking(id) else Idle))
      .(devices := AfterCall(h.crypto, s.devices, Revoke(id)))
    case MarkDisconnected(k) =>
      WithTask(s, k, s.tasks[k].(phase := Idle)).(connected := s.connected - {s.tasks[k].phase.revoked})
    case Leave(k) => WithTask(s, k, s.tasks[k].(phase := Leaving))
    case Forget(k) =>
      var device := s.tasks[k].session.DeviceOf();
      s.(tasks := s.tasks - {k},
         connected := if device.Some? then s.connected - {device.value} else s.connected)
    case Elapse(ms) => s.(clock := s.clock + ms)
  }

  predicate MicroInitial(s: Shared) {
    s.tasks == map[] && s.next == 0 && s.window == None && s.connected == {}
  }

  ghost predicate IsMicroRun(h: Host, ss: seq<Shared>, ls: seq<Micro>) {
    && |ss| == |ls| + 1
    && MicroInitial(ss[0])
    && forall i :: 0 <= i < |ls| ==> MicroStepAt(h, ss, ls, i)
  }

  ghost predicate MicroStepAt(h: Host, ss: seq<Shared>, ls: seq<Micro>, i: nat)
    requires i < |ls| && |ss| == |ls| + 1
  {
    MicroEnabled(ss[i], ls[i]) && ss[i + 1] == MicroStep(h, ss[i], ls[i])
  }

  // The connected set.

  predicate TaskReadyAs(s: Shared, k: nat, id: Text) {
    k in s.tasks && s.tasks[k].session.state == Ready(Deck, Some(id))
  }

  ghost predicate Witnessed(s: Shared, id: Text) {
    exists k :: TaskReadyAs(s, k, id)
  }

  ghost predicate MicroInv(s: Shared) {
    && (forall k :: k in s.tasks ==> k < s.next)
    && (forall k :: k in s.tasks && s.tasks[k].phase.Marking? ==> TaskReadyAs(s, k, s.tasks[k].phase.authenticated))
    && (forall id :: id in s.connected ==> Witnessed(s, id))
  }

  /** A live task that is Ready stays Ready as the same device, and no step but its own `Forget` ends it. */
  lemma ReadyTaskSurvives(h: Host, s: Shared, l: Micro, k: nat, id: Text)
    requires MicroInv(s) && MicroEnabled(s, l) && TaskReadyAs(s, k, id) && l != Forget(k)
    ensures TaskReadyAs(MicroStep(h, s, l), k, id)
  {
    match l
    case SayHello(j, r, entropy) =>
    case VerifyAuth(j, signature) => AuthGrants(s.tasks[j].session, signature, Context(h, s.devices, []));
    case _ =>
  }

  lemma MicroStepKeepsInv(h: Host, s: Shared, l: Micro)
    requires MicroInv(s) && MicroEnabled(s, l)
    ensures MicroInv(MicroStep(h, s, l))
  {
    var t := MicroStep(h, s, l);
    forall k | k in t.tasks && t.tasks[k].phase.Marking?
      ensures TaskReadyAs(t, k, t.tasks[k].phase.authenticated)
    {
      if l.VerifyAuth? && l.k == k {
        AuthGrants(s.tasks[k].session, l.signature, Context(h, s.devices, []));
      } else {
        ReadyTaskSurvives(h, s, l, k, t.tasks[k].phase.authenticated);
      }
    }
    forall id | id in t.connected ensures Witnessed(t, id) {
      if id in s.connected {
        var k :| TaskReadyAs(s, k, id);
        ReadyTaskSurvives(h, s, l, k, id);
        assert TaskReadyAs(t, k, id);
      } else {
        assert l.MarkConnected? && s.tasks[l.k].phase == Marking(id);
        assert TaskReadyAs(t, l.k, id);
      }
    }
  }

  /**
   * At every point between any two locks, each id in `connected` belongs to a socket task that has
   * not finished and is Ready as that device.
   */
  lemma {:induction false} ConnectedIsLive(h: Host, ss: seq<Shared>, ls: seq<Micro>, n: nat)
    requires IsMicroRun(h, ss, ls) && n < |ss|
    ensures MicroInv(ss[n])
  {
    if n > 0 {
      ConnectedIsLive(h, ss, ls, n - 1);
      assert MicroStepAt(h, ss, ls, n - 1);
      MicroStepKeepsInv(h, ss[n - 1], ls[n - 1]);
    }
  }

  // Pairing under interleaving.

  /** Between reading the window and having the key in the registry. */
  predicate Requesting(s: Shared, k: nat) {
    k in s.tasks && (s.tasks[k].phase.Checking? || s.tasks[k].phase.Proven? || s.tasks[k].phase.Inserted?)
  }

  /** The step a task past the window check read the window at, and the task's standing since. */
  lemma {:induction false} ReadOrigin(h: Host, ss: seq<Shared>, ls: seq<Micro>, n: nat, k: nat) returns (r: nat)
    requires IsMicroRun(h, ss, ls) && n < |ss| && Requesting(ss[n], k)
    ensures r < n && ls[r].ReadWindow? && ls[r].k == k
    ensures forall j :: r < j <= n ==> Requesting(ss[j], k)
    ensures forall j :: r < j < n ==> ls[j] != CloseWindow(k)
    ensures if ss[n].tasks[k].phase.Checking? then ss[n].tasks[k].phase.seen == OpenNow(ss[r]) else OpenNow(ss[r]).Some?
    decreases n
  {
    assert n > 0;
    r := n - 1;
    var s, l := ss[r], ls[r];
    ConnectedIsLive(h, ss, ls, r);
    assert MicroStepAt(h, ss, ls, r);
    if !(l.ReadWindow? && l.k == k) {
      assert k in s.tasks;
      r := ReadOrigin(h, ss, ls, n - 1, k);
    }
  }

  /** A window that is there was put there, and stood ever since. */
  lemma {:induction false} PairingOrigin(h: Host, ss: seq<Shared>, ls: seq<Micro>, n: nat) returns (w: nat)
    requires IsMicroRun(h, ss, ls) && n < |ss| && ss[n].window.Some?
    ensures w < n && ls[w].OpenPairing? && Some(ls[w].newWindow) == ss[n].window
    ensures forall j :: w < j <= n ==> ss[j].window == ss[n].window
    decreases n
  {
    assert n > 0;
    w := n - 1;
    assert MicroStepAt(h, ss, ls, w);
    if !ls[w].OpenPairing? {
      assert ss[w].window == ss[n].window;
      w := PairingOrigin(h, ss, ls, n - 1);
    }
  }

  /**
   * When one window can admit two devices. Of two successful pair requests, either the later one
   * read the window before the earlier one closed it, or an admin opened a new window in between.
   */
  lemma TwoSuccessesOverlap(h: Host, ss: seq<Shared>, ls: seq<Micro>, i: nat, j: nat) returns (r: nat, w: nat)
    requires IsMicroRun(h, ss, ls) && i < j < |ls| && ls[i].CloseWindow? && ls[j].CloseWindow?
    ensures r < j && ls[r].ReadWindow? && ls[r].k == ls[j].k
    ensures r < i || (i < w < r && ls[w].OpenPairing? && Some(ls[w].newWindow) == ss[r].window)
  {
    assert MicroStepAt(h, ss, ls, i) && MicroStepAt(h, ss, ls, j);
    r := ReadOrigin(h, ss, ls, j, ls[j].k);
    w := PairingOrigin(h, ss, ls, r);
    if i <= r {
      assert ss[i + 1].window == None;
    }
  }

  lemma {:induction false} ClocksGrow(h: Host, ss: seq<Shared>, ls: seq<Micro>, n: nat, m: nat)
    requires IsMicroRun(h, ss, ls) && n <= m < |ss|
    ensures ss[n].clock <= ss[m].clock
  {
    if n < m {
      ClocksGrow(h, ss, ls, n, m - 1);
      assert MicroStepAt(h, ss, ls, m - 1);
    }
  }

  /** A closed window stays closed until an admin opens one. */
  lemma {:induction false} StaysShut(h: Host, ss: seq<Shared>, ls: seq<Micro>, n: nat, m: nat)
    requires IsMicroRun(h, ss, ls) && n <= m < |ss| && ss[n].window == None
    requires forall j :: n <= j < m ==> !ls[j].OpenPairing?
    ensures ss[m].window == None
  {
    if n < m {
      StaysShut(h, ss, ls, n, m - 1);
      assert MicroStepAt(h, ss, ls, m - 1);
    }
  }

  /**
   * The race, exactly. A window `w` stood from step `o` until a successful request closed it at
   * step `c`, and no window was opened since. A request that `w` would let through, checked at step
   * `n` after having read the window after `o`, is let through if and only if it read it before `c`.
   */
  lemma LateCheckAdmits(h: Host, ss: seq<Shared>, ls: seq<Micro>, o: nat, c: nat, n: nat, w: Window, key: seq<byte>)
    returns (r: nat)
    requires IsMicroRun(h, ss, ls) && o < c < n < |ls|
    requires ls[c].CloseWindow? && ls[n].CheckRequest? && MicroEnabled(ss[n], ls[n])
    requires forall j :: o < j <= c ==> ss[j].window == Some(w)
    requires forall j :: c < j < n ==> !ls[j].OpenPairing?
    requires VerifyPairRequest(h.crypto, Some(w), ss[n].clock, ss[n].tasks[ls[n].k].phase.request) == Ok(key)
    ensures r < n && ls[r].ReadWindow? && ls[r].k == ls[n].k
    ensures ls[n].k in ss[n + 1].tasks
    ensures o < r ==> (ss[n + 1].tasks[ls[n].k].phase.Proven? <==> r < c)
    ensures o < r < c ==> ss[n + 1].tasks[ls[n].k].phase == Proven(key, ss[n].tasks[ls[n].k].phase.request)
  {
    r := ReadOrigin(h, ss, ls, n, ls[n].k);
    assert MicroStepAt(h, ss, ls, n) && MicroStepAt(h, ss, ls, c);
    if o < r < c {
      ClocksGrow(h, ss, ls, r, n);
      assert OpenNow(ss[r]) == Some(w);
    } else if c < r {
      StaysShut(h, ss, ls, c + 1, r);
    }
  }

  // One engine: a handler whose locks are taken without interruption is the handler of the run model.

  /** The engine state and the shared state hold the same registry, window and connected set. */
  predicate Same(e: Engines.EngineState, s: Shared) {
    e.devices == s.devices && e.window == s.window && e.connected == s.connected
  }

  /** `pair.request` from beginning to end with nobody in between. */
  function PairAtOnce(h: Host, s: Shared, k: nat, request: PairRequestBody, unixNow: int, saved: bool): Shared
    requires MicroEnabled(s, ReadWindow(k, request))
  {
    var checked := MicroStep(h, MicroStep(h, s, ReadWindow(k, request)), CheckRequest(k));
    if !checked.tasks[k].phase.Proven? then checked
    else
      var stored := MicroStep(h, checked, InsertKey(k, unixNow, saved));
      if saved then MicroStep(h, stored, CloseWindow(k)) else stored
  }

  lemma PairTaken(h: Host, s: Shared, k: nat, request: PairRequestBody, unixNow: int, saved: bool)
    requires MicroEnabled(s, ReadWindow(k, request))
    ensures PairAtOnce(h, s, k, request, unixNow, saved)
            == (match VerifyPairRequest(h.crypto, OpenNow(s), s.clock, request)
                case Err(_) => s
                case Ok(key) =>
                  var c := Insert(key, request.deviceName, request.platform, unixNow);
                  s.(devices := AfterCall(h.crypto, s.devices, c),
                     window := if saved then None else s.window))
  {
    var t := PairAtOnce(h, s, k, request, unixNow, saved);
    assert t.tasks == s.tasks;
  }

  lemma PairIsOneHandler(h: Host, e: Engines.EngineState, s: Shared, k: nat, d: Payload, x: Engines.World)
    requires Same(e, s) && d.pair.Some? && MicroEnabled(s, ReadWindow(k, d.pair.value))
    ensures var saved := x.write.outcome == Persistence.Persisted;
            var t := PairAtOnce(h, s, k, d.pair.value, x.unixNow, saved);
            var whole := Engines.OnPairRequest(h, e, s.tasks[k].session, d, x, s.clock);
            Same(whole.engine, t) && t == s.(devices := t.devices, window := t.window)
  {
    PairTaken(h, s, k, d.pair.value, x.unixNow, x.write.outcome == Persistence.Persisted);
  }

  function SignInAtOnce(h: Host, s: Shared, k: nat, signature: Text, unixNow: int): Shared
    requires MicroEnabled(s, VerifyAuth(k, signature))
  {
    var verified := MicroStep(h, s, VerifyAuth(k, signature));
    if !verified.tasks[k].phase.Marking? then verified
    else MicroStep(h, MicroStep(h, verified, MarkConnected(k)), StampSeen(k, unixNow))
  }

  /** The active profile is only mentioned in the answer. */
  lemma AuthIgnoresProfile(v: SessionValue, signature: Text, h: Host, devices: Devices, p: Text, q: Text)
    ensures var t, u := Auth(v, signature, Context(h, devices, p)), Auth(v, signature, Context(h, devices, q));
            t.session == u.session && (t.answer.Ok? <==> u.answer.Ok?)
  {}

  lemma VerifyTaken(h: Host, s: Shared, k: nat, signature: Text)
    requires MicroEnabled(s, VerifyAuth(k, signature))
    requires Auth(s.tasks[k].session, signature, Context(h, s.devices, [])).answer.Ok?
    ensures s.tasks[k].session.state.AwaitingAuth?
    ensures var id := s.tasks[k].session.state.deviceId;
            MicroStep(h, s, VerifyAuth(k, signature))
            == WithTask(s, k, Task(s.tasks[k].session.(state := Ready(Deck, Some(id))), Marking(id)))
  {
    AuthGrants(s.tasks[k].session, signature, Context(h, s.devices, []));
  }

  lemma MarkTaken(h: Host, s: Shared, k: nat, v: SessionValue, id: Text, unixNow: int)
    requires k in s.tasks && s.tasks[k] == Task(v, Marking(id))
    ensures var t := MicroStep(h, MicroStep(h, s, MarkConnected(k)), StampSeen(k, unixNow));
            && k in t.tasks && t.tasks[k] == Task(v, Idle)
            && t.window == s.window && t.connected == s.connected + {id}
            && t.devices == AfterCall(h.crypto, s.devices, Touch(id, unixNow))
  {}

  lemma SignInTaken(h: Host, s: Shared, k: nat, signature: Text, unixNow: int)
    requires MicroEnabled(s, VerifyAuth(k, signature))
    requires Auth(s.tasks[k].session, signature, Context(h, s.devices, [])).answer.Ok?
    ensures s.tasks[k].session.state.AwaitingAuth?
    ensures var t := SignInAtOnce(h, s, k, signature, unixNow);
            var id := s.tasks[k].session.state.deviceId;
            && k in t.tasks && t.tasks[k] == Task(s.tasks[k].session.(state := Ready(Deck, Some(id))), Idle)
            && t.window == s.window && t.connected == s.connected + {id}
            && t.devices == AfterCall(h.crypto, s.devices, Touch(id, unixNow))
  {
    VerifyTaken(h, s, k, signature);
    var id := s.tasks[k].session.state.deviceId;
    var v := s.tasks[k].session.(state := Ready(Deck, Some(id)));
    MarkTaken(h, WithTask(s, k, Task(v, Marking(id))), k, v, id, unixNow);
  }

  /** The whole handler, with the active profile taken out. */
  lemma SignInWhole(h: Host, e: Engines.EngineState, v: SessionValue, d: Payload, x: Engines.World)
    requires d.auth.Some?
    ensures var t := Auth(v, d.auth.value, Context(h, e.devices, []));
            var whole := Engines.OnAuth(h, e, v, d, x);
            && whole.session == t.session && whole.engine.window == e.window
            && (t.answer.Err? ==> whole.engine == e && t.session == v)
            && (t.answer.Ok? ==>
                  && v.state.AwaitingAuth? && t.session.state == Ready(Deck, Some(v.state.deviceId))
                  && whole.engine.connected == e.connected + {v.state.deviceId}
                  && whole.engine.devices == AfterCall(h.crypto, e.devices, Touch(v.state.deviceId, x.unixNow)))
  {
    AuthIgnoresProfile(v, d.auth.value, h, e.devices, [], ActiveId(e.store));
    AuthGrants(v, d.auth.value, Context(h, e.devices, []));
  }

  lemma SignInIsOneHandler(h: Host, e: Engines.EngineState, s: Shared, k: nat, d: Payload, x: Engines.World)
    requires Same(e, s) && d.auth.Some? && MicroEnabled(s, VerifyAuth(k, d.auth.value))
    ensures var t := SignInAtOnce(h, s, k, d.auth.value, x.unixNow);
            var whole := Engines.OnAuth(h, e, s.tasks[k].session, d, x);
            Same(whole.engine, t) && k in t.tasks && t.tasks[k] == Task(whole.session, Idle)
  {
    SignInWhole(h, e, s.tasks[k].session, d, x);
    if Auth(s.tasks[k].session, d.auth.value, Context(h, s.devices, [])).answer.Ok? {
      SignInTaken(h, s, k, d.auth.value, x.unixNow);
    }
  }

  function RevokeAtOnce(h: Host, s: Shared, k: nat, id: Text, saved: bool): Shared
    requires MicroEnabled(s, RevokeEntry(k, id, saved))
  {
    var removed := MicroStep(h, s, RevokeEntry(k, id, saved));
    if removed.tasks[k].phase.Unmarking? then MicroStep(h, removed, MarkDisconnected(k)) else removed
  }

  lemma RevokeIsOneHandler(h: Host, e: Engines.EngineState, s: Shared, k: nat, d: Payload, x: Engines.World)
    requires Same(e, s) && d.deviceRef.Some?
    requires MicroEnabled(s, RevokeEntry(k, d.deviceRef.value, x.write.outcome == Persistence.Persisted))
    ensures var t := RevokeAtOnce(h, s, k, d.deviceRef.value, x.write.outcome == Persistence.Persisted);
            var whole := Engines.OnPairRevoke(h, e, s.tasks[k].session, d, x);
            Same(whole.engine, t) && t == s.(devices := t.devices, connected := t.connected)
  {
    var saved := x.write.outcome == Persistence.Persisted;
    var t := RevokeAtOnce(h, s, k, d.deviceRef.value, saved);
    assert t.tasks == s.tasks;
  }

  lemma HelloIgnoresProfile(v: SessionValue, r: HelloRequest, h: Host, devices: Devices, p: Text, q: Text,
                            entropy: Option<Nonce>)
    ensures Hello(v, r, Context(h, devices, p), entropy).session == Hello(v, r, Context(h, devices, q), entropy).session
  {}

  /** The handlers that take a single lock, and a socket's end, are the same in both models. */
  lemma SmallStepsAreHandlers(h: Host, e: Engines.EngineState, s: Shared, k: nat, d: Payload, x: Engines.World)
    requires Same(e, s) && k in s.tasks && s.tasks[k].phase == Idle
    ensures d.hello.Some? ==>
              var t := MicroStep(h, s, SayHello(k, d.hello.value, x.nonce));
              Engines.OnHello(h, e, s.tasks[k].session, d, x).session == t.tasks[k].session && Same(e, t)
    ensures IsAdmin(s, k) ==>
              && Same(Engines.OnPairCancel(e, s.tasks[k].session).engine, MicroStep(h, s, CancelPairing(k)))
              && var begun := Engines.OnPairBegin(e, s.tasks[k].session, d, x, s.clock);
                 begun.answer.Ok? ==>
                   && begun.engine.window.Some?
                   && Same(begun.engine, MicroStep(h, s, OpenPairing(k, begun.engine.window.value)))
    ensures Same(Engines.Closed(e, s.tasks[k].session), MicroStep(h, MicroStep(h, s, Leave(k)), Forget(k)))
  {
    if d.hello.Some? {
      HelloIgnoresProfile(s.tasks[k].session, d.hello.value, h, s.devices, [], ActiveId(e.store), x.nonce);
    }
  }
}
