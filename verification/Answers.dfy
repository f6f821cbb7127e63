/** What each op is answered, changes and announces, told by its name and the state alone. */
module Answers {
  import opened Basics
  import opened Protocol
  import opened DeviceRegistry
  import opened ProfileStore
  import opened Sessions
  import opened Engines
  import opened Systems
  import opened Runs
  import Persistence

  /** The step is a frame asking for `op`, in the supported version, on a socket signed in with this role. */
  predicate Calls(s: System, l: Label, role: Role, op: KnownOp) {
    && Enabled(s, l) && l.Frame? && Asks(s, l, l.socket, op) && l.envelope.value.v == 1
    && s.sockets[l.socket].session.RoleOf() == Some(role)
  }

  /** The engine is left as it was and so is the session. */
  ghost predicate OnlyAnswers(h: Host, s: System, l: Label, answer: Result<Body, Error>)
    requires Enabled(s, l) && l.Frame? && l.envelope.Some?
  {
    Handle(h, s, l) == Handled(s.engine, s.sockets[l.socket].session, answer)
  }

  /** Any other version of the protocol is refused before anything else is looked at. */
  lemma VersionComesFirst(h: Host, s: System, l: Label)
    requires Enabled(s, l) && l.Frame? && l.envelope.Some? && l.envelope.value.v != 1
    ensures OnlyAnswers(h, s, l, Err(Wire(UnsupportedVersion)))
  {}

  /** A frame the gate refuses changes nothing and is answered with the gate's reason, whatever its payload. */
  lemma GateComesSecond(h: Host, s: System, l: Label)
    requires Enabled(s, l) && l.Frame? && l.envelope.Some? && l.envelope.value.v == 1
    requires Authorize(l.envelope.value.op, s.sockets[l.socket].session).Err?
    ensures OnlyAnswers(h, s, l, Err(Authorize(l.envelope.value.op, s.sockets[l.socket].session).error))
  {}

  // Reading.

  /** A layout is answered as it is stored, under its own id only. */
  lemma LayoutAnswers(h: Host, s: System, l: Label, role: Role)
    requires Calls(s, l, role, ProfileGet)
    ensures var f, id := s.engine.store, l.envelope.value.d.profileRef;
            OnlyAnswers(h, s, l, if id.None? then Err(Wire(BadRequest))
                                 else if id.value in f.profiles then Ok(Layout(f.profiles[id.value]))
                                 else Err(Wire(NotFound)))
  {}

  lemma LayoutsAnswers(h: Host, s: System, l: Label, role: Role)
    requires Calls(s, l, role, ProfileList)
    ensures OnlyAnswers(h, s, l, Ok(Layouts(List(s.engine.store))))
  {}

  lemma PingAnswers(h: Host, s: System, l: Label, role: Role)
    requires Calls(s, l, role, SystemPing)
    ensures OnlyAnswers(h, s, l, if l.envelope.value.d.ping.Some? then Ok(Pong(l.envelope.value.d.ping.value))
                                 else Err(Wire(BadRequest)))
  {}

  /** What the panel is shown: every registered device once, as registered, with whether it is connected. */
  lemma PanelSeesAll(h: Host, s: System, l: Label, id: Text)
    requires Calls(s, l, Admin, PairListDevices) && RegistryOk(h.crypto, s.engine.devices)
    ensures var answer := Handle(h, s, l).answer;
            && answer.Ok? && answer.value.Devices?
            && (forall i, j :: 0 <= i < j < |answer.value.devices| ==>
                  answer.value.devices[i].deviceId != answer.value.devices[j].deviceId)
            && (id in s.engine.devices <==>
                  exists i :: 0 <= i < |answer.value.devices| && answer.value.devices[i].deviceId == id)
            && (forall i :: 0 <= i < |answer.value.devices| && answer.value.devices[i].deviceId == id ==>
                  var d := s.engine.devices[id];
                  answer.value.devices[i]
                  == DeviceInfo(id, d.name, d.platform, d.pairedAt, d.lastSeen, id in s.engine.connected))
  {
    assert OnlyAnswers(h, s, l, Ok(Devices(ListDevices(s.engine.devices, s.engine.connected))));
    ListShowsAll(s.engine.devices, s.engine.connected);
  }

  // Subscribing and cancelling.

  lemma SubscribingAnswers(h: Host, s: System, l: Label, role: Role)
    ensures Calls(s, l, role, ProfileSubscribe) ==>
              Handle(h, s, l) == Handled(s.engine, s.sockets[l.socket].session.(profileSubscribed := true), Ok(Empty))
    ensures Calls(s, l, role, TelemetrySubscribe) ==>
              Handle(h, s, l) == Handled(s.engine, s.sockets[l.socket].session.(telemetrySubscribed := true), Ok(Empty))
    ensures Calls(s, l, Admin, PairCancel) ==>
              && Handle(h, s, l).engine.window == None && Handle(h, s, l).answer == Ok(Empty)
              && Handle(h, s, l).engine.(window := s.engine.window, published := s.engine.published) == s.engine
  {}

  // Signing in.

  /** An accepted signature marks the device connected and stamps its entry, and the deck is told the active layout. */
  lemma SignInEffect(h: Host, s: System, l: Label)
    requires Enabled(s, l) && Accepts(h, s, l) && StoreOk(s.engine.store)
    ensures s.sockets[l.socket].session.state.AwaitingAuth?
    ensures var id, e := s.sockets[l.socket].session.state.deviceId, Handle(h, s, l).engine;
            && e.connected == s.engine.connected + {id}
            && e.devices == AfterCall(h.crypto, s.engine.devices, Touch(id, l.world.unixNow))
            && e.window == s.engine.window && e.store == s.engine.store
            && Handle(h, s, l).answer == Ok(Granted(Deck, s.engine.store.active))
  {
    AuthGrants(s.sockets[l.socket].session, l.envelope.value.d.auth.value, HandshakeContext(h, s.engine));
    AuthAnswers(s.sockets[l.socket].session, l.envelope.value.d.auth.value, HandshakeContext(h, s.engine));
    FallbacksAreDead(s.engine.store);
  }

  /** The panel's sign-in changes nothing in the engine; it is told the active layout as well. */
  lemma PanelSignsIn(h: Host, s: System, l: Label)
    requires Enabled(s, l) && l.Frame? && PresentsToken(h, s, l, l.socket) && StoreOk(s.engine.store)
    requires l.envelope.value.v == 1 && !s.sockets[l.socket].session.IsReady()
    ensures Handle(h, s, l).engine == s.engine && Handle(h, s, l).session.state == Ready(Admin, None)
    ensures Handle(h, s, l).answer == Ok(Granted(Admin, s.engine.store.active))
  {
    var v, r := s.sockets[l.socket].session, l.envelope.value.d.hello.value;
    HelloGrants(v, r, HandshakeContext(h, s.engine), l.world.nonce);
    HelloAnswers(v, r, HandshakeContext(h, s.engine), l.world.nonce);
    FallbacksAreDead(s.engine.store);
  }

  // Revoking.

  lemma RevokingAnswers(h: Host, s: System, l: Label)
    requires Calls(s, l, Admin, PairRevoke)
    ensures var id, t := l.envelope.value.d.deviceRef, Handle(h, s, l);
            if id.None? then OnlyAnswers(h, s, l, Err(Wire(BadRequest)))
            else if id.value !in s.engine.devices then OnlyAnswers(h, s, l, Err(Wire(UnknownDevice)))
            else
              && t.engine.devices == s.engine.devices - {id.value}
              && t.engine.window == s.engine.window && t.engine.store == s.engine.store
              && if l.world.write.outcome == Persistence.Persisted
                 then t.answer == Ok(Empty) && t.engine.connected == s.engine.connected - {id.value}
                 else t.answer == Err(Fault) && t.engine.connected == s.engine.connected
  {}

  // Announcing.

  /** The events an op answered Ok gives rise to. */
  function News(op: Op): seq<KnownOp> {
    match op
    case Known(SessionAuth) | Known(PairRevoke) => [DeviceChanged]
    case Known(PairRequest) => [PairingState, DeviceChanged]
    case Known(PairBegin) | Known(PairCancel) => [PairingState]
    case Known(ProfileSet) | Known(ProfileActivate) | Known(ProfileDelete) => [ProfileChanged]
    case _ => []
  }

  function EventsFor(news: seq<KnownOp>): seq<Event> {
    seq(|news|, i requires 0 <= i < |news| => Event(news[i], AudienceFor(news[i])))
  }

  lemma StoreCallAnnounces(e: EngineState, s: SessionValue, c: StoreCall, x: World)
    requires StoreOk(e.store)
    ensures var t := OnStoreCall(e, s, c, x);
            t.engine.published == e.published + EventsFor(if t.answer.Ok? then [ProfileChanged] else [])
  {
    StoreStepKeepsOk(e.store, c);
  }

  lemma StoreAnnounces(e: EngineState, s: SessionValue, op: KnownOp, d: Payload, x: World)
    requires StoreOk(e.store) && (op.ProfileSet? || op.ProfileActivate? || op.ProfileDelete?)
    ensures var t := if op.ProfileSet? then OnProfileSet(e, s, d, x) else OnProfileRef(e, s, op, d, x);
            t.engine.published == e.published + EventsFor(if t.answer.Ok? then [ProfileChanged] else [])
  {
    var c := StoreCallIn(s, op, d);
    if c.Some? { StoreCallAnnounces(e, s, c.value, x); }
  }

  lemma SignInAnnounces(h: Host, e: EngineState, s: SessionValue, d: Payload, x: World)
    ensures var t := OnAuth(h, e, s, d, x);
            t.engine.published == e.published + EventsFor(if t.answer.Ok? then [DeviceChanged] else [])
  {}

  lemma PairingAnnounces(h: Host, e: EngineState, s: SessionValue, d: Payload, x: World, now: nat)
    ensures var t := OnPairRequest(h, e, s, d, x, now);
            t.engine.published == e.published + EventsFor(if t.answer.Ok? then [PairingState, DeviceChanged] else [])
  {}

  lemma OtherAnnounces(h: Host, e: EngineState, s: SessionValue, op: KnownOp, d: Payload, x: World, now: nat)
    requires !IsEvent(op) && !op.SessionAuth? && !op.PairRequest?
    requires !op.ProfileSet? && !op.ProfileActivate? && !op.ProfileDelete?
    ensures var t := Dispatch(h, e, s, op, d, x, now);
            t.engine.published == e.published + EventsFor(if t.answer.Ok? then News(Known(op)) else [])
  {}

  lemma HandlerAnnounces(h: Host, e: EngineState, s: SessionValue, op: KnownOp, d: Payload, x: World, now: nat)
    requires !IsEvent(op) && StoreOk(e.store)
    ensures var t := Dispatch(h, e, s, op, d, x, now);
            t.engine.published == e.published + EventsFor(if t.answer.Ok? then News(Known(op)) else [])
  {
    match op
    case SessionAuth => SignInAnnounces(h, e, s, d, x);
    case PairRequest => PairingAnnounces(h, e, s, d, x, now);
    case ProfileSet | ProfileActivate | ProfileDelete => StoreAnnounces(e, s, op, d, x);
    case _ => OtherAnnounces(h, e, s, op, d, x, now);
  }

  /** A frame announces exactly its news when it is answered Ok, in this order, and nothing when it is not. */
  lemma FrameAnnounces(h: Host, s: System, l: Label)
    requires Enabled(s, l) && l.Frame? && l.envelope.Some? && StoreOk(s.engine.store)
    ensures Handle(h, s, l).engine.published
            == s.engine.published + EventsFor(if Handle(h, s, l).answer.Ok? then News(l.envelope.value.op) else [])
  {
    var env, v := l.envelope.value, s.sockets[l.socket].session;
    if env.v == PROTOCOL_VERSION && Authorize(env.op, v).Ok? {
      AuthorizedIsRequest(env.op, v);
      HandlerAnnounces(h, s.engine, v, env.op.op, env.d, l.world, s.clock);
    }
  }

  /** A closing socket announces a change of devices exactly if it named one, Ready or not. */
  lemma CloseAnnounces(h: Host, s: System, l: Label)
    requires Enabled(s, l) && l.Close?
    ensures Step(h, s, l).engine.published
            == s.engine.published
               + EventsFor(if exists id :: IsAbout(s.sockets[l.closing].session.state, id) then [DeviceChanged] else [])
  {
    var v := s.sockets[l.closing].session;
    if v.DeviceOf().Some? { assert IsAbout(v.state, v.DeviceOf().value); }
  }
}
