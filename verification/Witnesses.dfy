/**
 * Concrete runs on which a documented promise fails: one device per pairing window, and no live
 * socket for a revoked device.
 */
module Witnesses {
  import opened Basics
  import opened ConstantTime
  import opened Protocol
  import opened Signing
  import opened Persistence
  import opened DeviceRegistry
  import opened Pairing
  import opened ProfileStore
  import opened Sessions
  import opened Engines
  import opened Systems
  import R = Runs
  import L = Locks

  /** Cryptography under which every signature verifies and a digest shows a key's first byte. */
  function Permissive(): Crypto {
    Crypto(
      (b: seq<byte>) => b,
      (t: Text) => Some(t),
      (b: seq<byte>) => FirstByteDigest(b),
      (b: seq<byte>) => true,
      (k: seq<byte>, m: seq<byte>, s: seq<byte>) => true)
  }

  function FirstByteDigest(b: seq<byte>): Digest {
    seq(32, _ => if b == [] then 0 else b[0])
  }

  function SomeHost(): Host {
    Host([7], [1], Permissive())
  }

  function Key(b: byte): (k: seq<byte>)
    ensures |k| == 32 && k[0] == b
  {
    seq(32, _ => b)
  }

  function Request(b: byte): PairRequestBody {
    PairRequestBody([5], Key(b), [], 0, seq(64, _ => 0))
  }

  lemma IdsDiffer()
    ensures DeviceId(Permissive(), Key(1)) != DeviceId(Permissive(), Key(2))
  {
    DeviceIdIsDigestPrefix(Permissive(), Key(1), Key(2));
    assert Permissive().sha256(Key(1))[..8][0] == 1;
    assert Permissive().sha256(Key(2))[..8][0] == 2;
  }

  lemma RequestVerifies(w: Window, now: nat, b: byte)
    requires w.code == [5] && IsOpen(w, now)
    ensures VerifyPairRequest(Permissive(), Some(w), now, Request(b)) == Ok(Key(b))
  {
    DecidesEquality(w.code, Request(b).code);
  }

  function TheWindow(): Window { Window([5], 0, 120_000, 120) }

  function Added(devices: Devices, b: byte): Devices {
    AfterCall(Permissive(), devices, Insert(Key(b), [], 0, 0))
  }

  function TheId(b: byte): Text { DeviceId(Permissive(), Key(b)) }

  // Two requests that overlap, one lock at a time.

  function AdminTask(): L.Task { L.Task(Opened(true).(state := Ready(Admin, None)), L.Idle) }

  /** The admin on socket 0 and two pairing phones on sockets 1 and 2. */
  function Racing(p1: L.Phase, p2: L.Phase, devices: Devices, window: Option<Window>): L.Shared {
    L.Shared(map[0 := AdminTask(), 1 := L.Task(Opened(false), p1), 2 := L.Task(Opened(false), p2)],
             3, devices, window, {}, 0)
  }

  function Reading(b: byte): L.Phase { L.Checking(Some(TheWindow()), Request(b)) }

  function Passed(b: byte): L.Phase { L.Proven(Key(b), Request(b)) }

  function RacingSteps(): seq<L.Micro> {
    [ L.Connect(true), L.SayHello(0, HelloRequest(None, Some([1])), None), L.OpenPairing(0, TheWindow()),
      L.Connect(false), L.Connect(false),
      L.ReadWindow(1, Request(1)), L.ReadWindow(2, Request(2)),
      L.CheckRequest(1), L.InsertKey(1, 0, true), L.CloseWindow(1),
      L.CheckRequest(2), L.InsertKey(2, 0, true), L.CloseWindow(2) ]
  }

  function Early(tasks: map<nat, L.Task>, next: nat, window: Option<Window>): L.Shared {
    L.Shared(tasks, next, map[], window, {}, 0)
  }

  function RacingStates(): (ss: seq<L.Shared>)
    ensures |ss| == 14
  {
    var w := Some(TheWindow());
    var one, two := Added(map[], 1), Added(Added(map[], 1), 2);
    [ Early(map[], 0, None), Early(map[0 := L.Task(Opened(true), L.Idle)], 1, None),
      Early(map[0 := AdminTask()], 1, None), Early(map[0 := AdminTask()], 1, w),
      Early(map[0 := AdminTask(), 1 := L.Task(Opened(false), L.Idle)], 2, w), Racing(L.Idle, L.Idle, map[], w),
      Racing(Reading(1), L.Idle, map[], w), Racing(Reading(1), Reading(2), map[], w),
      Racing(Passed(1), Reading(2), map[], w), Racing(L.Inserted, Reading(2), one, w),
      Racing(L.Idle, Reading(2), one, None), Racing(L.Idle, Passed(2), one, None),
      Racing(L.Idle, L.Inserted, two, None), Racing(L.Idle, L.Idle, two, None) ]
  }

  ghost predicate Makes(s: L.Shared, l: L.Micro, t: L.Shared) {
    L.MicroEnabled(s, l) && L.MicroStep(SomeHost(), s, l) == t
  }

  lemma AdminArrives()
    ensures Makes(Early(map[], 0, None), L.Connect(true), Early(map[0 := L.Task(Opened(true), L.Idle)], 1, None))
    ensures Makes(Early(map[0 := L.Task(Opened(true), L.Idle)], 1, None),
                  L.SayHello(0, HelloRequest(None, Some([1])), None),
                  Early(map[0 := AdminTask()], 1, None))
  {
    DecidesEquality([1], SomeHost().adminToken);
  }

  lemma WindowOpens()
    ensures Makes(Early(map[0 := AdminTask()], 1, None), L.OpenPairing(0, TheWindow()),
                  Early(map[0 := AdminTask()], 1, Some(TheWindow())))
  {}

  lemma PhonesConnect(w: Option<Window>)
    ensures Makes(Early(map[0 := AdminTask()], 1, w), L.Connect(false),
                  Early(map[0 := AdminTask(), 1 := L.Task(Opened(false), L.Idle)], 2, w))
    ensures Makes(Early(map[0 := AdminTask(), 1 := L.Task(Opened(false), L.Idle)], 2, w), L.Connect(false),
                  Racing(L.Idle, L.Idle, map[], w))
  {}

  lemma FirstMoves(p: L.Phase, q: L.Phase, other: L.Phase, devices: Devices, w: Option<Window>)
    ensures Racing(p, other, devices, w).tasks[1 := L.Task(Opened(false), q)] == Racing(q, other, devices, w).tasks
    ensures Racing(other, p, devices, w).tasks[2 := L.Task(Opened(false), q)] == Racing(other, q, devices, w).tasks
  {}

  lemma Reads()
    ensures var w := Some(TheWindow());
            var none, one := Racing(L.Idle, L.Idle, map[], w), Racing(Reading(1), L.Idle, map[], w);
            && Makes(none, L.ReadWindow(1, Request(1)), one)
            && Makes(one, L.ReadWindow(2, Request(2)), Racing(Reading(1), Reading(2), map[], w))
  {
    FirstMoves(L.Idle, Reading(1), L.Idle, map[], Some(TheWindow()));
    FirstMoves(L.Idle, Reading(2), Reading(1), map[], Some(TheWindow()));
  }

  lemma FirstChecks(devices: Devices, w: Option<Window>, other: L.Phase)
    ensures Makes(Racing(Reading(1), other, devices, w), L.CheckRequest(1), Racing(Passed(1), other, devices, w))
  {
    RequestVerifies(TheWindow(), 0, 1);
    FirstMoves(Reading(1), Passed(1), other, devices, w);
  }

  lemma FirstPairs(devices: Devices, w: Option<Window>, other: L.Phase)
    ensures Makes(Racing(Passed(1), other, devices, w), L.InsertKey(1, 0, true),
                  Racing(L.Inserted, other, Added(devices, 1), w))
  {
    FirstMoves(Passed(1), L.Inserted, other, devices, w);
  }

  lemma FirstCloses(devices: Devices, w: Option<Window>, other: L.Phase)
    ensures Makes(Racing(L.Inserted, other, devices, w), L.CloseWindow(1), Racing(L.Idle, other, devices, None))
  {
    FirstMoves(L.Inserted, L.Idle, other, devices, w);
  }

  lemma SecondChecks(devices: Devices, w: Option<Window>, other: L.Phase)
    ensures Makes(Racing(other, Reading(2), devices, w), L.CheckRequest(2), Racing(other, Passed(2), devices, w))
  {
    RequestVerifies(TheWindow(), 0, 2);
    FirstMoves(Reading(2), Passed(2), other, devices, w);
  }

  lemma SecondPairs(devices: Devices, w: Option<Window>, other: L.Phase)
    ensures Makes(Racing(other, Passed(2), devices, w), L.InsertKey(2, 0, true),
                  Racing(other, L.Inserted, Added(devices, 2), w))
  {
    FirstMoves(Passed(2), L.Inserted, other, devices, w);
  }

  lemma SecondCloses(devices: Devices, w: Option<Window>, other: L.Phase)
    ensures Makes(Racing(other, L.Inserted, devices, w), L.CloseWindow(2), Racing(other, L.Idle, devices, None))
  {
    FirstMoves(L.Inserted, L.Idle, other, devices, w);
  }

  lemma EarlyStepsMade(i: nat)
    requires i < 3 && |RacingSteps()| == 13
    ensures Makes(RacingStates()[i], RacingSteps()[i], RacingStates()[i + 1])
  {
    if i < 2 { AdminArrives(); } else { WindowOpens(); }
  }

  lemma PhoneStepsMade(i: nat)
    requires 3 <= i < 7 && |RacingSteps()| == 13
    ensures Makes(RacingStates()[i], RacingSteps()[i], RacingStates()[i + 1])
  {
    if i < 5 { PhonesConnect(Some(TheWindow())); } else { Reads(); }
  }

  lemma FirstCheckMade()
    requires |RacingSteps()| == 13
    ensures Makes(RacingStates()[7], RacingSteps()[7], RacingStates()[8])
  {
    FirstChecks(map[], Some(TheWindow()), Reading(2));
  }

  lemma FirstStepsMade(i: nat)
    requires 8 <= i < 10 && |RacingSteps()| == 13
    ensures Makes(RacingStates()[i], RacingSteps()[i], RacingStates()[i + 1])
  {
    if i == 8 { FirstPairs(map[], Some(TheWindow()), Reading(2)); }
    else { FirstCloses(Added(map[], 1), Some(TheWindow()), Reading(2)); }
  }

  lemma SecondStepsMade(i: nat)
    requires 10 <= i < 13 && |RacingSteps()| == 13
    ensures Makes(RacingStates()[i], RacingSteps()[i], RacingStates()[i + 1])
  {
    if i == 10 { SecondChecks(Added(map[], 1), None, L.Idle); }
    else if i == 11 { SecondPairs(Added(map[], 1), None, L.Idle); }
    else { SecondCloses(Added(Added(map[], 1), 2), None, L.Idle); }
  }

  lemma RaceEnds()
    ensures |RacingSteps()| == 13 && L.MicroInitial(RacingStates()[0])
    ensures RacingStates()[13].devices.Keys == {TheId(1), TheId(2)}
  {}

  lemma RaceRuns()
    ensures |RacingSteps()| == 13 && L.IsMicroRun(SomeHost(), RacingStates(), RacingSteps())
  {
    RaceEnds();
    forall i: nat | i < 13 ensures L.MicroStepAt(SomeHost(), RacingStates(), RacingSteps(), i) {
      if i < 3 { EarlyStepsMade(i); }
      else if i < 7 { PhoneStepsMade(i); }
      else if i == 7 { FirstCheckMade(); }
      else if i < 10 { FirstStepsMade(i); }
      else { SecondStepsMade(i); }
      assert Makes(RacingStates()[i], RacingSteps()[i], RacingStates()[i + 1]);
    }
  }

  /**
   * Two requests that both read the window before either closes it are both answered with success:
   * one opened window, two registered devices.
   */
  lemma RaceAdmitsTwo()
    ensures SomeHost().crypto.RoundTrips()
    ensures L.IsMicroRun(SomeHost(), RacingStates(), RacingSteps())
    ensures RacingSteps()[9] == L.CloseWindow(1) && RacingSteps()[12] == L.CloseWindow(2)
    ensures forall i :: 0 <= i < 13 && RacingSteps()[i].OpenPairing? ==> i == 2
    ensures RacingStates()[13].devices.Keys == {TheId(1), TheId(2)} && TheId(1) != TheId(2)
  {
    RaceEnds();
    RaceRuns();
    IdsDiffer();
  }

  // Requests one at a time: a panel on socket 0 opens a window, a phone connects on socket 1.

  function NoPayload(): Payload {
    Payload(None, None, None, None, None, None, None, None)
  }

  function Asking(op: KnownOp, d: Payload): Option<Envelope> {
    Some(Envelope(1, Some([9]), Known(op), d))
  }

  function TheNonce(): Nonce { seq(32, _ => 3) }

  function Quiet(o: Outcome): World {
    World(Some(TheNonce()), Some([5]), 0, Write(o, []), Ok(()))
  }

  function PairingStep(b: byte, o: Outcome): Label {
    Frame(1, Asking(PairRequest, NoPayload().(pair := Some(Request(b)))), Quiet(o))
  }

  function Opening(): seq<Label> {
    [ Label.Open(true),
      Frame(0, Asking(SessionHello, NoPayload().(hello := Some(HelloRequest(None, Some([1]))))), Quiet(Persisted)),
      Frame(0, Asking(PairBegin, NoPayload().(pairBegin := Some(None))), Quiet(Persisted)),
      Label.Open(false) ]
  }

  function EngineWith(devices: Devices, window: Option<Window>, connected: set<Text>, published: seq<Event>)
    : EngineState
  {
    EngineState(devices, window, connected, DefaultFile(), published)
  }

  function Panel(): Socket { Socket(Opened(true).(state := Ready(Admin, None)), 0) }

  function Phone(state: State): Socket { Socket(Opened(false).(state := state), 1) }

  function Alone(panel: Socket, e: EngineState): System { System(map[0 := panel], 1, e, 0) }

  function Both(phone: State, e: EngineState): System { System(map[0 := Panel(), 1 := Phone(phone)], 2, e, 0) }

  function PairingMoved(): Event { Event(PairingState, AdminsOnly) }

  function DevicesMoved(): Event { Event(DeviceChanged, AdminsOnly) }

  function Fresh(): EngineState { EngineWith(map[], None, {}, []) }

  function Waiting(devices: Devices): EngineState { EngineWith(devices, Some(TheWindow()), {}, [PairingMoved()]) }

  function Joined(devices: Devices): EngineState {
    EngineWith(devices, None, {}, [PairingMoved(), PairingMoved(), DevicesMoved()])
  }

  function Opened4(): (ss: seq<System>)
    ensures |ss| == 5
  {
    [ System(map[], 0, Fresh(), 0), Alone(Socket(Opened(true), 0), Fresh()), Alone(Panel(), Fresh()),
      Alone(Panel(), Waiting(map[])), Both(Unauthenticated, Waiting(map[])) ]
  }

  ghost predicate Follows(s: System, l: Label, t: System) {
    Enabled(s, l) && Step(SomeHost(), s, l) == t
  }

  lemma PanelArrives()
    ensures Follows(System(map[], 0, Fresh(), 0), Opening()[0], Alone(Socket(Opened(true), 0), Fresh()))
    ensures Follows(Alone(Socket(Opened(true), 0), Fresh()), Opening()[1], Alone(Panel(), Fresh()))
  {
    DecidesEquality([1], SomeHost().adminToken);
  }

  lemma PanelOpensWindow()
    ensures Follows(Alone(Panel(), Fresh()), Opening()[2], Alone(Panel(), Waiting(map[])))
    ensures Follows(Alone(Panel(), Waiting(map[])), Opening()[3], Both(Unauthenticated, Waiting(map[])))
  {}

  lemma OpeningFollows(i: nat)
    requires i < 4 && |Opening()| == 4
    ensures Follows(Opened4()[i], Opening()[i], Opened4()[i + 1])
  {
    PanelArrives();
    PanelOpensWindow();
  }

  lemma PhoneStays(state: State, other: State, e: EngineState)
    ensures Both(state, e).sockets[1 := Phone(other)] == Both(other, e).sockets
  {}

  lemma PairingFollows(b: byte, o: Outcome, devices: Devices)
    requires o == Persisted || o == RenameFailed
    ensures var after := if o == Persisted then Joined(Added(devices, b)) else Waiting(Added(devices, b));
            Follows(Both(Unauthenticated, Waiting(devices)), PairingStep(b, o), Both(Unauthenticated, after))
  {
    RequestVerifies(TheWindow(), 0, b);
    PhoneStays(Unauthenticated, Unauthenticated, Waiting(devices));
    var pushed := Publish(Publish(Waiting(devices), PairingState), DeviceChanged).published;
    assert pushed == [PairingMoved(), PairingMoved(), DevicesMoved()];
  }

  // A failed registry write leaves the window open.

  function FailingSteps(): seq<Label> {
    Opening() + [PairingStep(1, RenameFailed), PairingStep(2, Persisted)]
  }

  function FailingStates(): (ss: seq<System>)
    ensures |ss| == 7
  {
    var one := Added(map[], 1);
    Opened4() + [ Both(Unauthenticated, Waiting(one)), Both(Unauthenticated, Joined(Added(one, 2))) ]
  }

  lemma FailingFollows(i: nat)
    requires i < 6 && |FailingSteps()| == 6
    ensures R.StepAt(SomeHost(), FailingStates(), FailingSteps(), i)
  {
    if i < 4 { OpeningFollows(i); }
    PairingFollows(1, RenameFailed, map[]);
    PairingFollows(2, Persisted, Added(map[], 1));
    assert Follows(FailingStates()[i], FailingSteps()[i], FailingStates()[i + 1]);
  }

  lemma StartsFresh()
    ensures Initial(SomeHost(), Opened4()[0])
  {
    DefaultIsOk();
  }

  /**
   * One window, opened once, ends with two registered devices: the first request registered its
   * key but could not be saved, so it was answered with an error and left the window open.
   */
  lemma FailedWriteAdmitsTwo()
    ensures SomeHost().crypto.RoundTrips()
    ensures |FailingSteps()| == 6 && R.IsRun(SomeHost(), FailingStates(), FailingSteps())
    ensures FailingStates()[6].engine.devices.Keys == {TheId(1), TheId(2)} && TheId(1) != TheId(2)
  {
    IdsDiffer();
    StartsFresh();
    forall i: nat | i < 6 ensures R.StepAt(SomeHost(), FailingStates(), FailingSteps(), i) {
      FailingFollows(i);
    }
  }

  lemma RequestProves(b: byte, now: nat)
    requires now < 120_000
    ensures Pairing.Proved(Permissive(), Some(TheWindow()), now, Request(b), Key(b))
  {
    RequestVerifies(TheWindow(), now, b);
    VerifiedMeansProved(Permissive(), Some(TheWindow()), now, Request(b), Key(b));
  }

  /** That run is an instance of the exact condition: both requests qualify, and the second is let through. */
  lemma FailedWriteIsTheCondition()
    ensures Registers(SomeHost(), FailingStates()[4], FailingSteps()[4], Key(1))
    ensures R.WouldRegister(SomeHost(), FailingStates()[5], FailingSteps()[5], TheWindow(), Key(2))
    ensures Registers(SomeHost(), FailingStates()[5], FailingSteps()[5], Key(2))
  {
    FailedWriteAdmitsTwo();
    RequestProves(1, 0);
    RequestProves(2, 0);
    R.SecondDeviceAdmitted(SomeHost(), FailingStates(), FailingSteps(), 4, 5, TheWindow(), Key(1), Key(2));
  }

  // A revoked device keeps its socket.

  function SignedIn(devices: Devices, connected: set<Text>, published: seq<Event>): System {
    Both(Ready(Deck, Some(TheId(1))), EngineWith(devices, None, connected, published))
  }

  function Pushed(n: nat): seq<Event> {
    [PairingMoved(), PairingMoved(), DevicesMoved()] + seq(n, _ => DevicesMoved())
  }

  function HelloStep(): Label {
    Frame(1, Asking(SessionHello, NoPayload().(hello := Some(HelloRequest(Some(TheId(1)), None)))), Quiet(Persisted))
  }

  function AuthStep(): Label {
    Frame(1, Asking(SessionAuth, NoPayload().(auth := Some(seq(64, _ => 0)))), Quiet(Persisted))
  }

  function RevokeStep(): Label {
    Frame(0, Asking(PairRevoke, NoPayload().(deviceRef := Some(TheId(1)))), Quiet(Persisted))
  }

  function PingStep(): Label {
    Frame(1, Asking(SystemPing, NoPayload().(ping := Some(0))), Quiet(Persisted))
  }

  function RevokedSteps(): seq<Label> {
    Opening() + [PairingStep(1, Persisted), HelloStep(), AuthStep(), RevokeStep(), PingStep()]
  }

  function RevokedStates(): (ss: seq<System>)
    ensures |ss| == 10
  {
    var one := Added(map[], 1);
    Opened4() + [ Both(Unauthenticated, Joined(one)), Both(AwaitingAuth(TheId(1), TheNonce()), Joined(one)),
                  SignedIn(one, {TheId(1)}, Pushed(1)), SignedIn(map[], {}, Pushed(2)), SignedIn(map[], {}, Pushed(2)) ]
  }

  lemma PhoneIsChallenged()
    ensures Follows(Both(Unauthenticated, Joined(Added(map[], 1))), HelloStep(),
                    Both(AwaitingAuth(TheId(1), TheNonce()), Joined(Added(map[], 1))))
  {
    PhoneStays(Unauthenticated, AwaitingAuth(TheId(1), TheNonce()), Joined(Added(map[], 1)));
  }

  lemma TouchChangesNothing()
    ensures AfterCall(Permissive(), Added(map[], 1), Touch(TheId(1), 0)) == Added(map[], 1)
    ensures AfterCall(Permissive(), Added(map[], 1), Revoke(TheId(1))) == map[]
  {}

  lemma PhoneSignsIn()
    ensures Follows(Both(AwaitingAuth(TheId(1), TheNonce()), Joined(Added(map[], 1))), AuthStep(),
                    SignedIn(Added(map[], 1), {TheId(1)}, Pushed(1)))
  {
    PhoneStays(AwaitingAuth(TheId(1), TheNonce()), Ready(Deck, Some(TheId(1))), Joined(Added(map[], 1)));
    TouchChangesNothing();
    assert Joined(Added(map[], 1)).published + [DevicesMoved()] == Pushed(1);
  }

  lemma PanelRevokes()
    ensures Follows(SignedIn(Added(map[], 1), {TheId(1)}, Pushed(1)), RevokeStep(), SignedIn(map[], {}, Pushed(2)))
  {
    TouchChangesNothing();
    assert Pushed(1) + [DevicesMoved()] == Pushed(2);
    assert {TheId(1)} - {TheId(1)} == {};
  }

  lemma PhonePings()
    ensures Follows(SignedIn(map[], {}, Pushed(2)), PingStep(), SignedIn(map[], {}, Pushed(2)))
    ensures R.ReachesHandler(SignedIn(map[], {}, Pushed(2)), PingStep())
    ensures Handle(SomeHost(), SignedIn(map[], {}, Pushed(2)), PingStep()).answer == Ok(Pong(0))
  {}

  lemma RevokedFollows(i: nat)
    requires i < 9 && |RevokedSteps()| == 9
    ensures Follows(RevokedStates()[i], RevokedSteps()[i], RevokedStates()[i + 1])
  {
    if i < 4 { OpeningFollows(i); }
    else if i == 4 { PairingFollows(1, Persisted, map[]); }
    else if i == 5 { PhoneIsChallenged(); }
    else if i == 6 { PhoneSignsIn(); }
    else if i == 7 { PanelRevokes(); }
    else { PhonePings(); }
  }

  lemma RevokedRuns()
    ensures |RevokedSteps()| == 9 && R.IsRun(SomeHost(), RevokedStates(), RevokedSteps())
  {
    StartsFresh();
    forall i: nat | i < 9 ensures R.StepAt(SomeHost(), RevokedStates(), RevokedSteps(), i) {
      RevokedFollows(i);
      assert Follows(RevokedStates()[i], RevokedSteps()[i], RevokedStates()[i + 1]);
    }
  }

  /**
   * A phone pairs, signs in and is revoked, and the revocation is answered Ok and saved. Its socket
   * is still Ready as that device, which the registry no longer holds, and its next op is answered.
   */
  lemma RevokedKeepsSocket()
    ensures SomeHost().crypto.RoundTrips()
    ensures |RevokedSteps()| == 9 && R.IsRun(SomeHost(), RevokedStates(), RevokedSteps())
    ensures AsksAsAdmin(RevokedStates()[7], RevokedSteps()[7], PairRevoke) && RevokedSteps()[7] == RevokeStep()
    ensures TheId(1) in RevokedStates()[7].engine.devices && TheId(1) !in RevokedStates()[8].engine.devices
    ensures R.LiveDeck(RevokedStates()[8], 1, TheId(1))
    ensures R.ReachesHandler(RevokedStates()[8], RevokedSteps()[8])
    ensures Handle(SomeHost(), RevokedStates()[8], RevokedSteps()[8]).answer == Ok(Pong(0))
  {
    RevokedRuns();
    PhonePings();
  }
}
