/** The engine shared by every socket, and what one frame does to it. */
module Engines {
  import opened Basics
  import opened Protocol
  import opened Persistence
  import opened DeviceRegistry
  import opened Pairing
  import opened ProfileStore
  import opened Sessions

  datatype Event = Event(op: KnownOp, audience: Audience)

  datatype EngineState = EngineState(
    devices: Devices,
    window: Option<Window>,
    connected: set<Text>,
    store: StoreFile,
    published: seq<Event>)

  /**
   * What the outside world contributes while one frame is handled: entropy for a nonce and for a
   * pairing code, the wall clock, how the one possible file write ends, and the answer of the
   * handlers this model leaves out (input injection, shell actions, settings).
   */
  datatype World = World(
    nonce: Option<Nonce>, otp: Option<Text>, unixNow: int, write: Write, external: Result<(), Error>)

  datatype Handled = Handled(engine: EngineState, session: SessionValue, answer: Result<Body, Error>)

  function Publish(e: EngineState, op: KnownOp): EngineState {
    e.(published := e.published + [Event(op, AudienceFor(op))])
  }

  function HandshakeContext(h: Host, e: EngineState): Context {
    Context(h, e.devices, ActiveId(e.store))
  }

  function CurrentWindow(e: EngineState, now: nat): Option<Window> {
    if e.window.Some? && IsOpen(e.window.value, now) then e.window else None
  }

  // One function per arm.

  function Malformed(e: EngineState, s: SessionValue): Handled {
    Handled(e, s, Err(Wire(BadRequest)))
  }

  function OnHello(h: Host, e: EngineState, s: SessionValue, d: Payload, x: World): Handled {
    match d.hello
    case None => Malformed(e, s)
    case Some(r) =>
      var t := Hello(s, r, HandshakeContext(h, e), x.nonce);
      Handled(e, t.session, t.answer)
  }

  function OnAuth(h: Host, e: EngineState, s: SessionValue, d: Payload, x: World): Handled {
    match d.auth
    case None => Malformed(e, s)
    case Some(signature) =>
      var t := Auth(s, signature, HandshakeContext(h, e));
      if t.answer.Err? then Handled(e, t.session, t.answer)
      else
        var marked := match t.session.DeviceOf()
          case Some(id) => e.(connected := e.connected + {id},
                              devices := AfterCall(h.crypto, e.devices, Touch(id, x.unixNow)))
          case None => e;
        Handled(Publish(marked, DeviceChanged), t.session, t.answer)
  }

  function OnPairRequest(h: Host, e: EngineState, s: SessionValue, d: Payload, x: World, now: nat): Handled {
    match d.pair
    case None => Malformed(e, s)
    case Some(r) =>
      match VerifyPairRequest(h.crypto, CurrentWindow(e, now), now, r)
      case Err(error) => Handled(e, s, Err(error))
      case Ok(key) =>
        var stored := e.(devices := AfterCall(h.crypto, e.devices, Insert(key, r.deviceName, r.platform, x.unixNow)));
        if x.write.outcome != Persisted then Handled(stored, s, Err(Fault))
        else
          Handled(Publish(Publish(stored.(window := None), PairingState), DeviceChanged), s,
                  Ok(Paired(DeviceId(h.crypto, key), h.hostId)))
  }

  function OnPairBegin(e: EngineState, s: SessionValue, d: Payload, x: World, now: nat): Handled {
    if d.pairBegin.None? || !ValidTtl(d.pairBegin.value) then Malformed(e, s)
    else if x.otp.None? then Handled(e, s, Err(Fault))
    else
      var w := OpenWindow(x.otp.value, d.pairBegin.value, now, x.unixNow);
      Handled(Publish(e.(window := Some(w)), PairingState), s, Ok(WindowOpened(w.code, w.expiresAt)))
  }

  function OnPairCancel(e: EngineState, s: SessionValue): Handled {
    Handled(Publish(e.(window := None), PairingState), s, Ok(Empty))
  }

  function OnPairRevoke(h: Host, e: EngineState, s: SessionValue, d: Payload, x: World): Handled {
    match d.deviceRef
    case None => Malformed(e, s)
    case Some(id) =>
      if id !in e.devices then Handled(e, s, Err(Wire(UnknownDevice)))
      else
        var gone := e.(devices := AfterCall(h.crypto, e.devices, Revoke(id)));
        if x.write.outcome != Persisted then Handled(gone, s, Err(Fault))
        else Handled(Publish(gone.(connected := gone.connected - {id}), DeviceChanged), s, Ok(Empty))
  }

  ghost function OnStoreCall(e: EngineState, s: SessionValue, c: StoreCall, x: World): Handled {
    var stored := e.(store := After(e.store, c));
    match ResultOf(e.store, c, x.write.outcome)
    case Err(error) => Handled(stored, s, Err(error))
    case Ok(_) =>
      Handled(if c.Set? || Active(stored.store).Some? then Publish(stored, ProfileChanged) else stored, s, Ok(Empty))
  }

  ghost function OnProfileSet(e: EngineState, s: SessionValue, d: Payload, x: World): Handled {
    match d.profile
    case None => Malformed(e, s)
    case Some(p) =>
      var role := match s.RoleOf() case Some(r) => r case None => Deck;
      OnStoreCall(e, s, Set(p, role), x)
  }

  ghost function OnProfileRef(e: EngineState, s: SessionValue, op: KnownOp, d: Payload, x: World): Handled
    requires op.ProfileGet? || op.ProfileActivate? || op.ProfileDelete?
  {
    match d.profileRef
    case None => Malformed(e, s)
    case Some(id) =>
      if op.ProfileActivate? then OnStoreCall(e, s, Activate(id), x)
      else if op.ProfileDelete? then OnStoreCall(e, s, Delete(id), x)
      else if id in e.store.profiles then Handled(e, s, Ok(Layout(e.store.profiles[id])))
      else Handled(e, s, Err(Wire(NotFound)))
  }

  function OnExternal(e: EngineState, s: SessionValue, x: World): Handled {
    Handled(e, s, match x.external case Ok(_) => Ok(External) case Err(error) => Err(error))
  }

  /** Everything an authorised op does. */
  ghost function Dispatch(h: Host, e: EngineState, s: SessionValue, op: KnownOp, d: Payload, x: World, now: nat)
    : Handled
    requires !IsEvent(op)
  {
    match op
    case SessionHello => OnHello(h, e, s, d, x)
    case SessionAuth => OnAuth(h, e, s, d, x)
    case PairRequest => OnPairRequest(h, e, s, d, x, now)
    case PairBegin => OnPairBegin(e, s, d, x, now)
    case PairCancel => OnPairCancel(e, s)
    case PairListDevices => Handled(e, s, Ok(Devices(ListDevices(e.devices, e.connected))))
    case PairRevoke => OnPairRevoke(h, e, s, d, x)
    case SystemPing => (match d.ping case None => Malformed(e, s) case Some(t) => Handled(e, s, Ok(Pong(t))))
    case ProfileGet | ProfileActivate | ProfileDelete => OnProfileRef(e, s, op, d, x)
    case ProfileList => Handled(e, s, Ok(Layouts(List(e.store))))
    case ProfileSubscribe => Handled(e, s.(profileSubscribed := true), Ok(Empty))
    case ProfileSet => OnProfileSet(e, s, d, x)
    case TelemetrySubscribe => Handled(e, s.(telemetrySubscribed := true), Ok(Empty))
    case _ => OnExternal(e, s, x)
  }

  /** Nothing that passes the capability check is an event, so the dispatch below is total. */
  lemma AuthorizedIsRequest(op: Op, s: SessionValue)
    ensures Authorize(op, s).Ok? ==> op == Known(Authorize(op, s).value) && !IsEvent(Authorize(op, s).value)
  {
    match op
    case Unknown(_) =>
    case Known(known) =>
      match AccessFor(known) { case PreAuth => case Authenticated => case AdminOnly => case EventOnly => }
  }

  /** Version, then capability, then payload. */
  ghost function Route(h: Host, e: EngineState, s: SessionValue, env: Envelope, x: World, now: nat): Handled {
    if env.v != PROTOCOL_VERSION then Handled(e, s, Err(Wire(UnsupportedVersion)))
    else
      match Authorize(env.op, s)
      case Err(error) => Handled(e, s, Err(error))
      case Ok(op) =>
        AuthorizedIsRequest(env.op, s);
        Dispatch(h, e, s, op, env.d, x, now)
  }

  // Which files a frame writes.

  ghost function PairInsertion(h: Host, e: EngineState, d: Payload, x: World, now: nat): Option<RegistryCall> {
    match d.pair
    case None => None
    case Some(r) =>
      match VerifyPairRequest(h.crypto, CurrentWindow(e, now), now, r)
      case Err(_) => None
      case Ok(key) => Some(Insert(key, r.deviceName, r.platform, x.unixNow))
  }

  ghost function SignInStamp(h: Host, e: EngineState, s: SessionValue, d: Payload, x: World): Option<RegistryCall> {
    if d.auth.Some? && s.state.AwaitingAuth? && Auth(s, d.auth.value, HandshakeContext(h, e)).answer.Ok?
    then Some(Touch(s.state.deviceId, x.unixNow)) else None
  }

  ghost function Revocation(d: Payload): Option<RegistryCall> {
    match d.deviceRef case None => None case Some(id) => Some(Revoke(id))
  }

  ghost function RegistryCallIn(h: Host, e: EngineState, s: SessionValue, op: KnownOp, d: Payload, x: World, now: nat)
    : Option<RegistryCall>
  {
    match op
    case SessionAuth => SignInStamp(h, e, s, d, x)
    case PairRequest => PairInsertion(h, e, d, x, now)
    case PairRevoke => Revocation(d)
    case _ => None
  }

  /** The one registry call a frame makes, if it makes one. */
  ghost function RegistryCallOf(h: Host, e: EngineState, s: SessionValue, env: Envelope, x: World, now: nat)
    : Option<RegistryCall>
  {
    if env.v != PROTOCOL_VERSION || Authorize(env.op, s).Err? then None
    else RegistryCallIn(h, e, s, Authorize(env.op, s).value, env.d, x, now)
  }

  ghost function StoreCallIn(s: SessionValue, op: KnownOp, d: Payload): Option<StoreCall> {
    match op
    case ProfileSet =>
      (match d.profile
       case None => None
       case Some(p) => Some(Set(p, match s.RoleOf() case Some(r) => r case None => Deck)))
    case ProfileActivate => (match d.profileRef case None => None case Some(id) => Some(Activate(id)))
    case ProfileDelete => (match d.profileRef case None => None case Some(id) => Some(Delete(id)))
    case _ => None
  }

  /** The one store call a frame makes, if it makes one. */
  ghost function StoreCallOf(s: SessionValue, env: Envelope): Option<StoreCall> {
    if env.v != PROTOCOL_VERSION || Authorize(env.op, s).Err? then None
    else StoreCallIn(s, Authorize(env.op, s).value, env.d)
  }

  /** What handling an op did is what these calls did, and an Ok answer means that what they changed is saved. */
  ghost predicate Accounts(h: Host, e: EngineState, x: World, t: Handled, rc: Option<RegistryCall>,
                           sc: Option<StoreCall>)
  {
    && t.engine.devices == (match rc case None => e.devices case Some(c) => AfterCall(h.crypto, e.devices, c))
    && t.engine.store == (match sc case None => e.store case Some(c) => After(e.store, c))
    && (t.answer.Ok? && rc.Some? && !rc.value.Touch? ==>
          Reaches(h.crypto, e.devices, rc.value) && x.write.outcome == Persisted)
    && (t.answer.Ok? && sc.Some? ==> Refusal(e.store, sc.value).None? && x.write.outcome == Persisted)
  }

  lemma SignInAccounts(h: Host, e: EngineState, s: SessionValue, d: Payload, x: World)
    ensures Accounts(h, e, x, OnAuth(h, e, s, d, x), SignInStamp(h, e, s, d, x), None)
  {
    if d.auth.Some? { AuthGrants(s, d.auth.value, HandshakeContext(h, e)); }
  }

  lemma PairAccounts(h: Host, e: EngineState, s: SessionValue, d: Payload, x: World, now: nat)
    ensures Accounts(h, e, x, OnPairRequest(h, e, s, d, x, now), PairInsertion(h, e, d, x, now), None)
  {
    if d.pair.Some? {
      var verdict := VerifyPairRequest(h.crypto, CurrentWindow(e, now), now, d.pair.value);
      if verdict.Ok? { VerifiedMeansProved(h.crypto, CurrentWindow(e, now), now, d.pair.value, verdict.value); }
    }
  }

  lemma StoreAccounts(h: Host, e: EngineState, s: SessionValue, op: KnownOp, d: Payload, x: World)
    requires op.ProfileSet? || op.ProfileActivate? || op.ProfileDelete?
    ensures Accounts(h, e, x, if op.ProfileSet? then OnProfileSet(e, s, d, x) else OnProfileRef(e, s, op, d, x),
                     None, StoreCallIn(s, op, d))
  {}

  lemma OpAccounts(h: Host, e: EngineState, s: SessionValue, op: KnownOp, d: Payload, x: World, now: nat)
    requires !IsEvent(op)
    ensures Accounts(h, e, x, Dispatch(h, e, s, op, d, x, now),
                     RegistryCallIn(h, e, s, op, d, x, now), StoreCallIn(s, op, d))
  {
    match op
    case SessionAuth => SignInAccounts(h, e, s, d, x);
    case PairRequest => PairAccounts(h, e, s, d, x, now);
    case ProfileSet | ProfileActivate | ProfileDelete => StoreAccounts(h, e, s, op, d, x);
    case _ =>
  }

  /**
   * The registry and the store change by these two calls and in no other way, and an Ok answer to a
   * frame that made one means it was saved; a sign-in alone is answered Ok whether its time stamp
   * was saved or not.
   */
  lemma FrameSaves(h: Host, e: EngineState, s: SessionValue, env: Envelope, x: World, now: nat)
    ensures Accounts(h, e, x, Route(h, e, s, env, x, now), RegistryCallOf(h, e, s, env, x, now), StoreCallOf(s, env))
  {
    if env.v == PROTOCOL_VERSION && Authorize(env.op, s).Ok? {
      AuthorizedIsRequest(env.op, s);
      OpAccounts(h, e, s, env.op.op, env.d, x, now);
    }
  }

  /** A parsed frame is always answered, with its own id and op; an unparseable one never is. */
  function ReplyTo(env: Envelope, answer: Result<Body, Error>): Reply {
    match answer
    case Ok(body) => Reply(Res, env.id, env.op, Ok(body))
    case Err(error) => Reply(ErrMsg, env.id, env.op, Err(error.Code()))
  }

  /** What the engine is left as when a socket closes. */
  function Closed(e: EngineState, s: SessionValue): EngineState {
    match s.DeviceOf()
    case Some(id) => Publish(e.(connected := e.connected - {id}), DeviceChanged)
    case None => e
  }

  /** The engine object, with the registry and the store it owns. */
  class Engine {
    const host: Host
    const registry: Registry
    const store: Store
    var window: Option<Window>
    var connected: set<Text>
    var published: seq<Event>

    constructor (host: Host, registry: Registry, store: Store)
      ensures this.host == host && this.registry == registry && this.store == store
      ensures window == None && connected == {} && published == []
    {
      this.host, this.registry, this.store := host, registry, store;
      window, connected, published := None, {}, [];
    }

    ghost predicate Valid() {
      registry.crypto == host.crypto && registry.disk != store.disk
    }

    function Snapshot(): EngineState
      reads this, registry, store
    {
      EngineState(registry.devices, window, connected, store.File(), published)
    }

    function Observe(session: Session, answer: Result<Body, Error>): Handled
      reads this, registry, store, session
    {
      Handled(Snapshot(), session.Value(), answer)
    }

    method PublishEvent(op: KnownOp)
      modifies this`published
      ensures Snapshot() == Publish(old(Snapshot()), op)
    {
      published := published + [Event(op, AudienceFor(op))];
    }

    method HandlePairRequest(session: Session, d: Payload, x: World, now: nat) returns (answer: Result<Body, Error>)
      requires Valid()
      modifies this`window, this`published, registry, registry.disk
      ensures Observe(session, answer) == OnPairRequest(host, old(Snapshot()), old(session.Value()), d, x, now)
      ensures registry.Recorded(old(registry.disk.Current()), old(registry.disk.seen), old(registry.devices), x.write,
                                PairInsertion(host, old(Snapshot()), d, x, now))
    {
      if d.pair.None? {
        return Err(Wire(BadRequest));
      }
      var request := d.pair.value;
      var current := if window.Some? && IsOpen(window.value, now) then window else None;
      var key := CheckPairRequest(host.crypto, current, now, request);
      if key.Err? {
        return Err(key.error);
      }
      VerifiedMeansProved(host.crypto, current, now, request, key.value);
      var id := registry.InsertDevice(key.value, request.deviceName, request.platform, x.unixNow, x.write);
      if id.Err? {
        return Err(id.error);
      }
      window := None;
      PublishEvent(PairingState);
      PublishEvent(DeviceChanged);
      return Ok(Paired(id.value, host.hostId));
    }

    method HandlePairBegin(session: Session, d: Payload, x: World, now: nat) returns (answer: Result<Body, Error>)
      modifies this`window, this`published
      ensures Observe(session, answer) == OnPairBegin(old(Snapshot()), old(session.Value()), d, x, now)
    {
      if d.pairBegin.None? {
        return Err(Wire(BadRequest));
      }
      var ttl := d.pairBegin.value;
      if ttl.Some? && !(30 <= ttl.value <= 300) {
        return Err(Wire(BadRequest));
      }
      if x.otp.None? {
        return Err(Fault);
      }
      var w := OpenWindow(x.otp.value, ttl, now, x.unixNow);
      window := Some(w);
      PublishEvent(PairingState);
      return Ok(WindowOpened(w.code, w.expiresAt));
    }

    method HandlePairRevoke(session: Session, d: Payload, x: World) returns (answer: Result<Body, Error>)
      requires Valid()
      modifies this`connected, this`published, registry, registry.disk
      ensures Observe(session, answer) == OnPairRevoke(host, old(Snapshot()), old(session.Value()), d, x)
      ensures registry.Recorded(old(registry.disk.Current()), old(registry.disk.seen), old(registry.devices), x.write,
                                Revocation(d))
    {
      if d.deviceRef.None? {
        return Err(Wire(BadRequest));
      }
      var existed := registry.RevokeDevice(d.deviceRef.value, x.write);
      if existed.Err? {
        return Err(existed.error);
      }
      if !existed.value {
        return Err(Wire(UnknownDevice));
      }
      connected := connected - {d.deviceRef.value};
      PublishEvent(DeviceChanged);
      return Ok(Empty);
    }

    method HandleHandshake(session: Session, op: KnownOp, d: Payload, x: World) returns (answer: Result<Body, Error>)
      requires Valid() && (op.SessionHello? || op.SessionAuth?)
      modifies this`connected, this`published, registry, registry.disk, session
      ensures Observe(session, answer) ==
                (if op.SessionHello? then OnHello(host, old(Snapshot()), old(session.Value()), d, x)
                 else OnAuth(host, old(Snapshot()), old(session.Value()), d, x))
      ensures registry.Recorded(old(registry.disk.Current()), old(registry.disk.seen), old(registry.devices), x.write,
                                if op.SessionHello? then None
                                else SignInStamp(host, old(Snapshot()), old(session.Value()), d, x))
    {
      if (op.SessionHello? && d.hello.None?) || (op.SessionAuth? && d.auth.None?) {
        return Err(Wire(BadRequest));
      }
      var activeProfileId := ActiveId(store.File());
      if op.SessionHello? {
        answer := session.HandleHello(d.hello.value, host, registry, activeProfileId, x.nonce);
        return;
      }
      answer := session.HandleAuth(d.auth.value, host, registry, activeProfileId);
      if answer.Err? {
        return;
      }
      var device := session.Value().DeviceOf();
      if device.Some? {
        connected := connected + {device.value};
        var _ := registry.TouchDevice(device.value, x.unixNow, x.write);
      }
      PublishEvent(DeviceChanged);
    }

    method HandleStore(session: Session, c: StoreCall, x: World) returns (answer: Result<Body, Error>)
      modifies this`published, store, store.disk
      ensures Observe(session, answer) == OnStoreCall(old(Snapshot()), old(session.Value()), c, x)
      ensures store.Recorded(old(store.disk.Current()), old(store.disk.seen), old(store.File()), x.write,
                             Some(c))
    {
      var r;
      match c {
        case Set(profile, role) => r := store.SetProfile(profile, role, x.write);
        case Delete(id) => r := store.DeleteProfile(id, x.write);
        case Activate(id) => r := store.ActivateProfile(id, x.write);
      }
      if r.Err? {
        return Err(r.error);
      }
      if c.Set? || Active(store.File()).Some? {
        PublishEvent(ProfileChanged);
      }
      return Ok(Empty);
    }

    method HandleProfileSet(session: Session, d: Payload, x: World) returns (answer: Result<Body, Error>)
      modifies this`published, store, store.disk
      ensures Observe(session, answer) == OnProfileSet(old(Snapshot()), old(session.Value()), d, x)
      ensures store.Recorded(old(store.disk.Current()), old(store.disk.seen), old(store.File()), x.write,
                             StoreCallIn(old(session.Value()), ProfileSet, d))
    {
      if d.profile.None? {
        return Err(Wire(BadRequest));
      }
      var granted := session.Value().RoleOf();
      var role := if granted.Some? then granted.value else Deck;
      answer := HandleStore(session, Set(d.profile.value, role), x);
    }

    method HandleProfileRef(session: Session, op: KnownOp, d: Payload, x: World) returns (answer: Result<Body, Error>)
      requires op.ProfileGet? || op.ProfileActivate? || op.ProfileDelete?
      modifies this`published, store, store.disk
      ensures Observe(session, answer) == OnProfileRef(old(Snapshot()), old(session.Value()), op, d, x)
      ensures store.Recorded(old(store.disk.Current()), old(store.disk.seen), old(store.File()), x.write,
                             StoreCallIn(old(session.Value()), op, d))
    {
      if d.profileRef.None? {
        return Err(Wire(BadRequest));
      }
      var id := d.profileRef.value;
      if op.ProfileGet? {
        return if id in store.profiles then Ok(Layout(store.profiles[id])) else Err(Wire(NotFound));
      }
      answer := HandleStore(session, if op.ProfileActivate? then Activate(id) else Delete(id), x);
    }

    /**
     * The arms of `handle_envelope`. The ones the source marks unreachable, and the arm for events,
     * are proved unreachable where they stand.
     */
    method HandleOp(session: Session, op: KnownOp, d: Payload, x: World, now: nat) returns (answer: Result<Body, Error>)
      requires Valid() && !IsInput(op) && !IsEvent(op)
      modifies this`window, this`connected, this`published, registry, registry.disk, store, store.disk, session
      ensures Observe(session, answer) == Dispatch(host, old(Snapshot()), old(session.Value()), op, d, x, now)
      ensures registry.Recorded(old(registry.disk.Current()), old(registry.disk.seen), old(registry.devices), x.write,
                                RegistryCallIn(host, old(Snapshot()), old(session.Value()), op, d, x, now))
      ensures store.Recorded(old(store.disk.Current()), old(store.disk.seen), old(store.File()), x.write,
                             StoreCallIn(old(session.Value()), op, d))
    {
      match op {
        case SessionHello | SessionAuth =>
          answer := HandleHandshake(session, op, d, x);
        case PairRequest =>
          answer := HandlePairRequest(session, d, x, now);
        case PairBegin =>
          answer := HandlePairBegin(session, d, x, now);
        case PairCancel =>
          window := None;
          PublishEvent(PairingState);
          answer := Ok(Empty);
        case PairListDevices =>
          answer := Ok(Devices(ListDevices(registry.devices, connected)));
        case PairRevoke =>
          answer := HandlePairRevoke(session, d, x);
        case SystemPing =>
          answer := if d.ping.Some? then Ok(Pong(d.ping.value)) else Err(Wire(BadRequest));
        case ProfileGet | ProfileActivate | ProfileDelete =>
          answer := HandleProfileRef(session, op, d, x);
        case ProfileSet =>
          answer := HandleProfileSet(session, d, x);
        case ProfileList =>
          answer := Ok(Layouts(List(store.File())));
        case ProfileSubscribe =>
          session.SubscribeProfile();
          answer := Ok(Empty);
        case TelemetrySubscribe =>
          session.SubscribeTelemetry();
          answer := Ok(Empty);
        case ActionRun | ActionList | ActionSet | ActionDelete | SettingsGet | SettingsSet =>
          answer := if x.external.Ok? then Ok(External) else Err(x.external.error);
        case InputKeyCombo | InputKeySequence | InputText | InputMedia | InputMouse =>
          assert false;
        case ProfileChanged | TelemetryUpdate | DeviceChanged | PairingState | EngineShutdown =>
          assert false;
      }
    }

    /** `handle_envelope`, which checks version and capability once more. */
    method HandleEnvelope(session: Session, env: Envelope, x: World, now: nat) returns (answer: Result<Body, Error>)
      requires Valid()
      requires Authorize(env.op, session.Value()).Ok? ==> !IsInput(Authorize(env.op, session.Value()).value)
      modifies this`window, this`connected, this`published, registry, registry.disk, store, store.disk, session
      ensures Observe(session, answer) == Route(host, old(Snapshot()), old(session.Value()), env, x, now)
      ensures registry.Recorded(old(registry.disk.Current()), old(registry.disk.seen), old(registry.devices), x.write,
                                RegistryCallOf(host, old(Snapshot()), old(session.Value()), env, x, now))
      ensures store.Recorded(old(store.disk.Current()), old(store.disk.seen), old(store.File()), x.write,
                             StoreCallOf(old(session.Value()), env))
    {
      if env.v != PROTOCOL_VERSION {
        return Err(Wire(UnsupportedVersion));
      }
      var authorized := Authorize(env.op, session.Value());
      if authorized.Err? {
        return Err(authorized.error);
      }
      AuthorizedIsRequest(env.op, session.Value());
      answer := HandleOp(session, authorized.value, env.d, x, now);
    }

    /** `handle_input`, called for input ops only; its catch-all arm is proved unreachable. */
    method HandleInput(op: KnownOp, x: World) returns (answer: Result<Body, Error>)
      requires IsInput(op)
      ensures answer == match x.external case Ok(_) => Ok(External) case Err(error) => Err(error)
    {
      match op {
        case InputKeyCombo | InputKeySequence | InputText | InputMedia | InputMouse =>
          answer := if x.external.Ok? then Ok(External) else Err(x.external.error);
        case _ =>
          assert false;
      }
    }

    /** `handle_text` and `route`: input ops are peeled off, everything else goes to `handle_envelope`. */
    method HandleText(session: Session, frame: Option<Envelope>, x: World, now: nat) returns (reply: Option<Reply>)
      requires Valid()
      modifies this`window, this`connected, this`published, registry, registry.disk, store, store.disk, session
      ensures frame.None? ==> reply.None? && Snapshot() == old(Snapshot()) && session.Value() == old(session.Value())
      ensures frame.Some? ==>
                var handled := Route(host, old(Snapshot()), old(session.Value()), frame.value, x, now);
                && Snapshot() == handled.engine
                && session.Value() == handled.session
                && reply == Some(ReplyTo(frame.value, handled.answer))
                && reply.value.id == frame.value.id && reply.value.op == frame.value.op
                && (match handled.answer
                    case Ok(body) => reply.value.t == Res && reply.value.answer == Ok(body)
                    case Err(Wire(code)) => reply.value.t == ErrMsg && reply.value.answer == Err(code)
                    case Err(Fault) => reply.value.t == ErrMsg && reply.value.answer == Err(InternalError))
      ensures registry.Recorded(old(registry.disk.Current()), old(registry.disk.seen), old(registry.devices), x.write,
                                if frame.None? then None
                                else RegistryCallOf(host, old(Snapshot()), old(session.Value()), frame.value, x, now))
      ensures store.Recorded(old(store.disk.Current()), old(store.disk.seen), old(store.File()), x.write,
                             if frame.None? then None else StoreCallOf(old(session.Value()), frame.value))
    {
      if frame.None? {
        return None;
      }
      var env := frame.value;
      var answer;
      var authorized := Authorize(env.op, session.Value());
      AuthorizedIsRequest(env.op, session.Value());
      if env.v != PROTOCOL_VERSION {
        answer := Err(Wire(UnsupportedVersion));
      } else if authorized.Err? {
        answer := Err(authorized.error);
      } else if IsInput(authorized.value) {
        answer := HandleInput(authorized.value, x);
      } else {
        answer := HandleEnvelope(session, env, x, now);
      }
      return Some(ReplyTo(env, answer));
    }

    /** What a closing socket does on its way out. */
    method Disconnect(session: Session)
      modifies this`connected, this`published
      ensures Snapshot() == Closed(old(Snapshot()), session.Value())
    {
      var device := session.Value().DeviceOf();
      if device.Some? {
        connected := connected - {device.value};
        PublishEvent(DeviceChanged);
      }
    }
  }
}
