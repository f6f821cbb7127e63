/** Many sockets over one engine: the transition system, and what one step can do. */
module Systems {
  import opened Basics
  import opened ConstantTime
  import opened Protocol
  import opened Signing
  import opened DeviceRegistry
  import opened Pairing
  import opened ProfileStore
  import opened Sessions
  import opened Engines

  /** A live connection: its session, and how far its event receiver has read. */
  datatype Socket = Socket(session: SessionValue, cursor: nat)

  datatype System = System(sockets: map<nat, Socket>, nextSocket: nat, engine: EngineState, clock: nat)

  datatype Label =
    | Open(loopback: bool)
    | Frame(socket: nat, envelope: Option<Envelope>, world: World)
    | Receive(reader: nat)
    | Close(closing: nat)
    | Tick(ms: nat)
    | Announce(op: KnownOp)

  /** A freshly loaded engine: nobody connected, no window, a registry and a store as they load. */
  ghost predicate Initial(h: Host, s: System) {
    && s.sockets == map[] && s.nextSocket == 0
    && s.engine.window == None && s.engine.connected == {} && s.engine.published == []
    && RegistryOk(h.crypto, s.engine.devices)
    && StoreOk(s.engine.store)
  }

  predicate Enabled(s: System, l: Label) {
    match l
    case Open(_) => true
    case Frame(k, _, _) => k in s.sockets
    case Receive(k) => k in s.sockets && s.sockets[k].session.IsReady() && s.sockets[k].cursor < |s.engine.published|
    case Close(k) => k in s.sockets
    case Tick(_) => true
    case Announce(op) => IsEvent(op)
  }

  /** How many events the broadcast channel keeps for a slow reader. */
  const BUS_CAPACITY: nat := 64

  predicate Lagged(s: System, k: nat)
    requires k in s.sockets
  {
    |s.engine.published| > s.sockets[k].cursor + BUS_CAPACITY
  }

  /** The index of the event this step sends to its socket, if it sends one. */
  function Delivers(s: System, l: Label): Option<nat>
    requires Enabled(s, l)
  {
    if l.Receive? && !Lagged(s, l.reader)
       && s.sockets[l.reader].session.Wants(s.engine.published[s.sockets[l.reader].cursor].audience)
    then Some(s.sockets[l.reader].cursor) else None
  }

  /** What handling this frame does, before the reply is framed. */
  ghost function Handle(h: Host, s: System, l: Label): Handled
    requires Enabled(s, l) && l.Frame? && l.envelope.Some?
  {
    Route(h, s.engine, s.sockets[l.socket].session, l.envelope.value, l.world, s.clock)
  }

  ghost function Step(h: Host, s: System, l: Label): System
    requires Enabled(s, l)
  {
    match l
    case Open(loopback) =>
      s.(sockets := s.sockets[s.nextSocket := Socket(Opened(loopback), |s.engine.published|)],
         nextSocket := s.nextSocket + 1)
    case Frame(k, envelope, _) =>
      if envelope.None? then s
      else
        var handled := Handle(h, s, l);
        s.(sockets := s.sockets[k := s.sockets[k].(session := handled.session)], engine := handled.engine)
    case Receive(k) =>
      var next := if Lagged(s, k) then |s.engine.published| - BUS_CAPACITY else s.sockets[k].cursor + 1;
      s.(sockets := s.sockets[k := s.sockets[k].(cursor := next)])
    case Close(k) =>
      s.(sockets := s.sockets - {k}, engine := Closed(s.engine, s.sockets[k].session))
    case Tick(ms) => s.(clock := s.clock + ms)
    case Announce(op) => s.(engine := Publish(s.engine, op))
  }

  // What a frame asks for, as predicates on the step.

  predicate Asks(s: System, l: Label, k: nat, op: KnownOp) {
    l.Frame? && l.socket == k && k in s.sockets && l.envelope.Some? && l.envelope.value.op == Known(op)
  }

  /** The step is `session.hello` on socket `k`, still in its handshake, by registered device `id`, and drew `nonce`. */
  predicate Issues(h: Host, s: System, l: Label, k: nat, id: Text, nonce: Nonce) {
    && Asks(s, l, k, SessionHello)
    && l.envelope.value.v == PROTOCOL_VERSION
    && !s.sockets[k].session.IsReady()
    && l.world.nonce == Some(nonce)
    && l.envelope.value.d.hello == Some(HelloRequest(Some(id), None))
    && VerifyingKey(h.crypto, s.engine.devices, id).Ok?
  }

  /** The step is a loopback peer on socket `k` presenting the admin token. */
  predicate PresentsToken(h: Host, s: System, l: Label, k: nat) {
    && Asks(s, l, k, SessionHello)
    && s.sockets[k].session.loopback
    && l.envelope.value.d.hello == Some(HelloRequest(None, Some(h.adminToken)))
  }

  /**
   * The step is `session.auth` on socket `k`, and the signature verifies under the key registered
   * at this step for `id`, over exactly the domain, this nonce, `id` and this host's id.
   */
  ghost predicate Proves(h: Host, s: System, l: Label, k: nat, id: Text, nonce: Nonce) {
    && Asks(s, l, k, SessionAuth)
    && s.sockets[k].session.state == AwaitingAuth(id, nonce)
    && id in s.engine.devices
    && l.envelope.value.d.auth.Some?
    && VerifyingKey(h.crypto, s.engine.devices, id).Ok?
    && (exists sig ::
          && h.crypto.decode64(l.envelope.value.d.auth.value) == Some(sig)
          && |sig| == SIGNATURE_LEN
          && h.crypto.verifyStrict(VerifyingKey(h.crypto, s.engine.devices, id).value,
                                   SessionAuthMessage(nonce, id, h.hostId), sig))
  }

  /** The step is answered Ok to `session.auth`. */
  ghost predicate Accepts(h: Host, s: System, l: Label) {
    l.Frame? && Asks(s, l, l.socket, SessionAuth) && Handle(h, s, l).answer.Ok?
  }

  /** The step is a `pair.request` that proved `key` under the code of the window open right now. */
  ghost predicate Registers(h: Host, s: System, l: Label, key: seq<byte>) {
    && l.Frame? && Asks(s, l, l.socket, PairRequest)
    && l.envelope.value.v == PROTOCOL_VERSION
    && !s.sockets[l.socket].session.IsReady()
    && l.envelope.value.d.pair.Some?
    && Proved(h.crypto, s.engine.window, s.clock, l.envelope.value.d.pair.value, key)
  }

  /** The step is a `pair.request` answered with success. */
  ghost predicate Pairs(h: Host, s: System, l: Label) {
    l.Frame? && Asks(s, l, l.socket, PairRequest) && Handle(h, s, l).answer.Ok?
  }

  /** How long a window lasts, in milliseconds, by the seconds asked for: two minutes when none are. */
  function LifetimeMs(seconds: Option<nat>): nat {
    match seconds case None => 120_000 case Some(n) => 1000 * n
  }

  /** The step is an admin socket's `pair.begin` that opens `w`, a window of the 30 to 300 seconds it asks for. */
  predicate OpensWindow(s: System, l: Label, w: Window) {
    && l.Frame? && AsksAsAdmin(s, l, PairBegin)
    && l.envelope.value.v == PROTOCOL_VERSION
    && l.envelope.value.d.pairBegin.Some?
    && l.world.otp == Some(w.code) && w.openedAt == s.clock
    && w.ttlMs == LifetimeMs(l.envelope.value.d.pairBegin.value) && 30_000 <= w.ttlMs <= 300_000
  }

  predicate AsksAsAdmin(s: System, l: Label, op: KnownOp) {
    l.Frame? && Asks(s, l, l.socket, op) && s.sockets[l.socket].session.RoleOf() == Some(Admin)
  }

  // What one routed frame can do to the session.

  /** The only ways a session's state can move. */
  ghost predicate SessionMove(h: Host, s: System, l: Label, k: nat, after: SessionValue)
    requires k in s.sockets
  {
    var before := s.sockets[k].session;
    && after.loopback == before.loopback
    && (|| after.state == before.state
        || (!before.IsReady()
            && match after.state
               case Unauthenticated => false
               case AwaitingAuth(id, nonce) => Issues(h, s, l, k, id, nonce)
               case Ready(Admin, device) => device == None && PresentsToken(h, s, l, k)
               case Ready(Deck, device) =>
                 before.state.AwaitingAuth? && device == Some(before.state.deviceId)
                 && Proves(h, s, l, k, before.state.deviceId, before.state.nonce)))
  }

  /** A challenge is sent exactly when one is issued, and it carries the encoded nonce. */
  lemma ChallengesAreIssued(h: Host, s: System, l: Label, k: nat)
    requires Enabled(s, l) && Asks(s, l, k, SessionHello)
    ensures forall id, nonce: Nonce :: Issues(h, s, l, k, id, nonce) ==>
              && Handle(h, s, l).answer == Ok(Challenge(h.crypto.encode64(nonce), h.hostId))
              && Handle(h, s, l).session == s.sockets[k].session.(state := AwaitingAuth(id, nonce))
    ensures Handle(h, s, l).answer.Ok? && Handle(h, s, l).answer.value.Challenge? ==>
              exists id, nonce: Nonce :: Issues(h, s, l, k, id, nonce)
  {
    var d := l.envelope.value.d;
    if Handle(h, s, l).answer.Ok? && Handle(h, s, l).answer.value.Challenge? {
      assert d.hello.value == HelloRequest(Some(d.hello.value.deviceId.value), None);
      assert Issues(h, s, l, k, d.hello.value.deviceId.value, l.world.nonce.value);
    }
  }

  lemma HelloSession(h: Host, s: System, l: Label, k: nat)
    requires Enabled(s, l) && Asks(s, l, k, SessionHello)
    ensures SessionMove(h, s, l, k, Handle(h, s, l).session)
  {
    var v := s.sockets[k].session;
    var env := l.envelope.value;
    if env.v == PROTOCOL_VERSION && !v.IsReady() && env.d.hello.Some? {
      var r := env.d.hello.value;
      assert r == HelloRequest(r.deviceId, r.adminToken);
      var t := Hello(v, r, HandshakeContext(h, s.engine), l.world.nonce);
      assert Handle(h, s, l).session == t.session;
      HelloGrants(v, r, HandshakeContext(h, s.engine), l.world.nonce);
    }
  }

  /** `session.auth` is answered Ok exactly on a proof over the awaited challenge, and only then makes a deck. */
  lemma AuthSession(h: Host, s: System, l: Label, k: nat)
    requires Enabled(s, l) && Asks(s, l, k, SessionAuth)
    ensures SessionMove(h, s, l, k, Handle(h, s, l).session)
    ensures var st := s.sockets[k].session.state;
            Accepts(h, s, l) <==>
              && st.AwaitingAuth? && l.envelope.value.v == PROTOCOL_VERSION
              && Proves(h, s, l, k, st.deviceId, st.nonce)
    ensures Accepts(h, s, l) ==>
              Handle(h, s, l).session.state == Ready(Deck, Some(s.sockets[k].session.state.deviceId))
  {
    var v := s.sockets[k].session;
    var env := l.envelope.value;
    if env.v == PROTOCOL_VERSION && !v.IsReady() && env.d.auth.Some? {
      var t := Auth(v, env.d.auth.value, HandshakeContext(h, s.engine));
      assert Handle(h, s, l).session == t.session && Handle(h, s, l).answer == t.answer;
      AuthGrants(v, env.d.auth.value, HandshakeContext(h, s.engine));
    }
  }

  lemma OtherSession(h: Host, s: System, l: Label, k: nat)
    requires Enabled(s, l) && l.Frame? && l.socket == k && l.envelope.Some?
    requires l.envelope.value.op != Known(SessionHello) && l.envelope.value.op != Known(SessionAuth)
    ensures Handle(h, s, l).session.state == s.sockets[k].session.state
    ensures Handle(h, s, l).session.loopback == s.sockets[k].session.loopback
  {
    if l.envelope.value.v == PROTOCOL_VERSION {
      AuthorizedIsRequest(l.envelope.value.op, s.sockets[k].session);
    }
  }

  lemma RouteSession(h: Host, s: System, l: Label, k: nat)
    requires Enabled(s, l) && l.Frame? && l.socket == k && l.envelope.Some?
    ensures SessionMove(h, s, l, k, Handle(h, s, l).session)
  {
    if l.envelope.value.op == Known(SessionHello) {
      HelloSession(h, s, l, k);
    } else if l.envelope.value.op == Known(SessionAuth) {
      AuthSession(h, s, l, k);
    } else {
      OtherSession(h, s, l, k);
    }
  }

  // What one routed frame can do to the engine.

  /** The registration a step makes, as the verdict of the check it went through. */
  lemma RegistersIsVerdict(h: Host, s: System, l: Label, key: seq<byte>)
    requires Enabled(s, l) && l.Frame? && Asks(s, l, l.socket, PairRequest)
    requires l.envelope.value.v == PROTOCOL_VERSION && !s.sockets[l.socket].session.IsReady()
    requires l.envelope.value.d.pair.Some?
    ensures var window := CurrentWindow(s.engine, s.clock);
            Registers(h, s, l, key) <==>
              VerifyPairRequest(h.crypto, window, s.clock, l.envelope.value.d.pair.value) == Ok(key)
  {
    VerifiedMeansProved(h.crypto, CurrentWindow(s.engine, s.clock), s.clock, l.envelope.value.d.pair.value, key);
  }

  function Registration(l: Label, key: seq<byte>): RegistryCall
    requires l.Frame? && l.envelope.Some? && l.envelope.value.d.pair.Some?
  {
    Insert(key, l.envelope.value.d.pair.value.deviceName, l.envelope.value.d.pair.value.platform, l.world.unixNow)
  }

  lemma PairRequestEffect(h: Host, s: System, l: Label)
    requires Enabled(s, l) && l.Frame? && Asks(s, l, l.socket, PairRequest)
    ensures Handle(h, s, l) ==
              (if l.envelope.value.v == PROTOCOL_VERSION && !s.sockets[l.socket].session.IsReady()
               then OnPairRequest(h, s.engine, s.sockets[l.socket].session, l.envelope.value.d, l.world, s.clock)
               else
                 var code := if l.envelope.value.v == PROTOCOL_VERSION then BadRequest else UnsupportedVersion;
                 Handled(s.engine, s.sockets[l.socket].session, Err(Wire(code))))
  {}

  /**
   * A pair request goes through exactly when it proved its key, and then it always registers that
   * key; it is answered with success, and closes the window, exactly when the registry was also
   * written to disk. A failed write leaves the device registered in memory and the window open.
   */
  lemma PairRequestRegisters(h: Host, s: System, l: Label, key: seq<byte>)
    requires Enabled(s, l) && l.Frame? && Registers(h, s, l, key)
    ensures StorableKey(h.crypto, key)
    ensures var saved := l.world.write.outcome == Persistence.Persisted;
            var e := Handle(h, s, l).engine;
            && e.devices == AfterCall(h.crypto, s.engine.devices, Registration(l, key))
            && (Handle(h, s, l).answer.Ok? <==> saved)
            && e.window == (if saved then None else s.engine.window)
  {
    PairRequestEffect(h, s, l);
    RegistersIsVerdict(h, s, l, key);
  }

  lemma PairRequestRefused(h: Host, s: System, l: Label)
    requires Enabled(s, l) && l.Frame? && Asks(s, l, l.socket, PairRequest)
    requires forall key :: !Registers(h, s, l, key)
    ensures Handle(h, s, l).engine == s.engine && Handle(h, s, l).answer.Err?
  {
    PairRequestEffect(h, s, l);
    var env := l.envelope.value;
    if env.v == PROTOCOL_VERSION && !s.sockets[l.socket].session.IsReady() && env.d.pair.Some? {
      var verdict := VerifyPairRequest(h.crypto, CurrentWindow(s.engine, s.clock), s.clock, env.d.pair.value);
      if verdict.Ok? {
        RegistersIsVerdict(h, s, l, verdict.value);
      }
    }
  }

  lemma RegisteredKey(h: Host, s: System, l: Label) returns (key: seq<byte>)
    requires Enabled(s, l) && Pairs(h, s, l)
    ensures Registers(h, s, l, key)
  {
    if exists k :: Registers(h, s, l, k) {
      key :| Registers(h, s, l, key);
    } else {
      PairRequestRefused(h, s, l);
    }
  }

  lemma RouteWindow(h: Host, s: System, l: Label)
    requires Enabled(s, l) && l.Frame? && l.envelope.Some?
    ensures var before, after := s.engine.window, Handle(h, s, l).engine.window;
            || after == before
            || (after == None && (AsksAsAdmin(s, l, PairCancel) || Pairs(h, s, l)))
            || (after.Some? && OpensWindow(s, l, after.value))
  {
    if l.envelope.value.v == PROTOCOL_VERSION {
      AuthorizedIsRequest(l.envelope.value.op, s.sockets[l.socket].session);
    }
  }

  /** A successful pair request used up the window it was checked against. */
  lemma PairingClosesWindow(h: Host, s: System, l: Label)
    requires Enabled(s, l) && Pairs(h, s, l)
    ensures Handle(h, s, l).engine.window == None && s.engine.window.Some?
    ensures l.envelope.value.d.pair.Some? && l.envelope.value.d.pair.value.code == s.engine.window.value.code
  {
    var key := RegisteredKey(h, s, l);
    PairRequestRegisters(h, s, l, key);
  }

  /** Only three ops reach the registry, three the store, three the window and two the connected set. */
  lemma Untouched(h: Host, s: System, l: Label)
    requires Enabled(s, l) && l.Frame? && l.envelope.Some?
    ensures var op := l.envelope.value.op;
            var e := Handle(h, s, l).engine;
            && (op !in {Known(SessionAuth), Known(PairRequest), Known(PairRevoke)} ==> e.devices == s.engine.devices)
            && (op !in {Known(ProfileSet), Known(ProfileActivate), Known(ProfileDelete)} ==> e.store == s.engine.store)
            && (op !in {Known(SessionAuth), Known(PairRevoke)} ==> e.connected == s.engine.connected)
  {
    if l.envelope.value.v == PROTOCOL_VERSION {
      AuthorizedIsRequest(l.envelope.value.op, s.sockets[l.socket].session);
    }
  }

  /** Events are only ever appended. */
  lemma PublishedGrows(h: Host, s: System, l: Label)
    requires Enabled(s, l) && l.Frame? && l.envelope.Some?
    ensures s.engine.published <= Handle(h, s, l).engine.published
  {
    if l.envelope.value.v == PROTOCOL_VERSION {
      AuthorizedIsRequest(l.envelope.value.op, s.sockets[l.socket].session);
    }
  }

  ghost predicate EntryExplained(h: Host, s: System, l: Label, after: Devices, id: Text)
    requires id in after
  {
    || (id in s.engine.devices && after[id].pubkey == s.engine.devices[id].pubkey)
    || (exists key :: Registers(h, s, l, key) && id == DeviceId(h.crypto, key)
                      && after[id].pubkey == h.crypto.encode64(key))
  }

  /** Every entry after the step was there before with the same key, or was registered by this very step. */
  ghost predicate RegistryExplained(h: Host, s: System, l: Label)
    requires Enabled(s, l) && l.Frame? && l.envelope.Some?
  {
    var after := Handle(h, s, l).engine.devices;
    && (h.crypto.RoundTrips() && RegistryOk(h.crypto, s.engine.devices) ==> RegistryOk(h.crypto, after))
    && (forall id :: id in s.engine.devices && id !in after
                     ==> AsksAsAdmin(s, l, PairRevoke) && l.envelope.value.d.deviceRef == Some(id))
    && (forall id :: id in after ==> EntryExplained(h, s, l, after, id))
  }

  /** `session.auth` either changes nothing, or signs the awaited device in and stamps its entry. */
  lemma AuthEffect(h: Host, s: System, l: Label)
    requires Enabled(s, l) && l.Frame? && Asks(s, l, l.socket, SessionAuth)
    ensures var v := s.sockets[l.socket].session;
            var t := Handle(h, s, l);
            || (t.engine.devices == s.engine.devices && t.engine.connected == s.engine.connected)
            || (&& v.state.AwaitingAuth?
                && t.session.state == Ready(Deck, Some(v.state.deviceId))
                && t.engine.devices == AfterCall(h.crypto, s.engine.devices, Touch(v.state.deviceId, l.world.unixNow))
                && t.engine.connected == s.engine.connected + {v.state.deviceId})
  {
    var v := s.sockets[l.socket].session;
    var d := l.envelope.value.d;
    if d.auth.Some? {
      AuthGrants(v, d.auth.value, HandshakeContext(h, s.engine));
    }
  }

  lemma TouchKeepsKeys(crypto: Crypto, devices: Devices, c: RegistryCall)
    requires c.Touch?
    ensures AfterCall(crypto, devices, c).Keys == devices.Keys
    ensures forall id :: id in devices ==> AfterCall(crypto, devices, c)[id].pubkey == devices[id].pubkey
  {}

  lemma AuthTouches(h: Host, s: System, l: Label)
    requires Enabled(s, l) && l.Frame? && Asks(s, l, l.socket, SessionAuth)
    ensures RegistryExplained(h, s, l)
  {
    AuthEffect(h, s, l);
    var after := Handle(h, s, l).engine.devices;
    if after != s.engine.devices {
      var c := Touch(s.sockets[l.socket].session.state.deviceId, l.world.unixNow);
      TouchKeepsKeys(h.crypto, s.engine.devices, c);
      if h.crypto.RoundTrips() && RegistryOk(h.crypto, s.engine.devices) {
        RegistryStepKeepsOk(h.crypto, s.engine.devices, c);
      }
    }
  }

  /** `pair.revoke` either changes no entry, or takes out the one an admin named. */
  lemma RevokeEffect(h: Host, s: System, l: Label)
    requires Enabled(s, l) && l.Frame? && Asks(s, l, l.socket, PairRevoke)
    ensures var t := Handle(h, s, l);
            || (t.engine.devices == s.engine.devices && t.engine.connected == s.engine.connected)
            || (&& AsksAsAdmin(s, l, PairRevoke) && l.envelope.value.d.deviceRef.Some?
                && t.engine.devices == AfterCall(h.crypto, s.engine.devices, Revoke(l.envelope.value.d.deviceRef.value))
                && (t.engine.connected == s.engine.connected
                    || t.engine.connected == s.engine.connected - {l.envelope.value.d.deviceRef.value}))
  {}

  lemma RevokeKeepsOthers(crypto: Crypto, devices: Devices, c: RegistryCall)
    requires c.Revoke?
    ensures AfterCall(crypto, devices, c).Keys == devices.Keys - {c.id}
    ensures forall id :: id in AfterCall(crypto, devices, c) ==> AfterCall(crypto, devices, c)[id] == devices[id]
  {}

  lemma RevokeRemoves(h: Host, s: System, l: Label)
    requires Enabled(s, l) && l.Frame? && Asks(s, l, l.socket, PairRevoke)
    ensures RegistryExplained(h, s, l)
  {
    RevokeEffect(h, s, l);
    var after := Handle(h, s, l).engine.devices;
    if after != s.engine.devices {
      var c := Revoke(l.envelope.value.d.deviceRef.value);
      RevokeKeepsOthers(h.crypto, s.engine.devices, c);
      if h.crypto.RoundTrips() && RegistryOk(h.crypto, s.engine.devices) {
        RegistryStepKeepsOk(h.crypto, s.engine.devices, c);
      }
    }
  }

  lemma PairExplains(h: Host, s: System, l: Label)
    requires Enabled(s, l) && l.Frame? && Asks(s, l, l.socket, PairRequest)
    ensures RegistryExplained(h, s, l)
  {
    var after := Handle(h, s, l).engine.devices;
    if exists key :: Registers(h, s, l, key) {
      var key :| Registers(h, s, l, key);
      PairRequestRegisters(h, s, l, key);
      if h.crypto.RoundTrips() && RegistryOk(h.crypto, s.engine.devices) {
        RegistryStepKeepsOk(h.crypto, s.engine.devices, Registration(l, key));
      }
      forall id | id in after ensures EntryExplained(h, s, l, after, id) {
        if id == DeviceId(h.crypto, key) {
          assert after[id].pubkey == h.crypto.encode64(key);
        }
      }
    } else {
      PairRequestRefused(h, s, l);
    }
  }

  lemma RouteRegistry(h: Host, s: System, l: Label)
    requires Enabled(s, l) && l.Frame? && l.envelope.Some?
    ensures RegistryExplained(h, s, l)
  {
    var op := l.envelope.value.op;
    if op == Known(SessionAuth) {
      AuthTouches(h, s, l);
    } else if op == Known(PairRequest) {
      PairExplains(h, s, l);
    } else if op == Known(PairRevoke) {
      RevokeRemoves(h, s, l);
    } else {
      Untouched(h, s, l);
    }
  }

  lemma RouteConnected(h: Host, s: System, l: Label)
    requires Enabled(s, l) && l.Frame? && l.envelope.Some?
    ensures forall id :: id in Handle(h, s, l).engine.connected ==>
              id in s.engine.connected || Handle(h, s, l).session.state == Ready(Deck, Some(id))
  {
    var op := l.envelope.value.op;
    if op == Known(SessionAuth) {
      AuthEffect(h, s, l);
    } else if op == Known(PairRevoke) {
      RevokeEffect(h, s, l);
    } else {
      Untouched(h, s, l);
    }
  }

  /** The store changes only by its own three operations, and what is stored only at an admin's request. */
  lemma RouteStore(h: Host, s: System, l: Label)
    requires Enabled(s, l) && l.Frame? && l.envelope.Some?
    ensures StoreOk(s.engine.store) ==> StoreOk(Handle(h, s, l).engine.store)
    ensures Handle(h, s, l).engine.store.profiles != s.engine.store.profiles
            ==> AsksAsAdmin(s, l, ProfileSet) || AsksAsAdmin(s, l, ProfileDelete)
  {
    var op := l.envelope.value.op;
    if op == Known(ProfileSet) || op == Known(ProfileActivate) || op == Known(ProfileDelete) {
      StoreCallMade(h, s, l);
    } else {
      Untouched(h, s, l);
    }
  }

  /** A profile op is refused by the gate, or is one store call in the caller's own role. */
  lemma SetEffect(h: Host, s: System, l: Label)
    requires Enabled(s, l) && l.Frame? && Asks(s, l, l.socket, ProfileSet)
    ensures Handle(h, s, l).engine.store == s.engine.store
            || (AsksAsAdmin(s, l, ProfileSet) && l.envelope.value.d.profile.Some?
                && Handle(h, s, l).engine.store == After(s.engine.store, Set(l.envelope.value.d.profile.value, Admin)))
  {}

  lemma ActivateEffect(h: Host, s: System, l: Label)
    requires Enabled(s, l) && l.Frame? && Asks(s, l, l.socket, ProfileActivate)
    ensures Handle(h, s, l).engine.store == s.engine.store
            || (l.envelope.value.d.profileRef.Some?
                && Handle(h, s, l).engine.store == After(s.engine.store, Activate(l.envelope.value.d.profileRef.value)))
  {}

  lemma DeleteEffect(h: Host, s: System, l: Label)
    requires Enabled(s, l) && l.Frame? && Asks(s, l, l.socket, ProfileDelete)
    ensures Handle(h, s, l).engine.store == s.engine.store
            || (AsksAsAdmin(s, l, ProfileDelete) && l.envelope.value.d.profileRef.Some?
                && Handle(h, s, l).engine.store == After(s.engine.store, Delete(l.envelope.value.d.profileRef.value)))
  {}

  lemma StoreCallMade(h: Host, s: System, l: Label)
    requires Enabled(s, l) && l.Frame? && l.envelope.Some?
    requires l.envelope.value.op in {Known(ProfileSet), Known(ProfileActivate), Known(ProfileDelete)}
    ensures StoreOk(s.engine.store) ==> StoreOk(Handle(h, s, l).engine.store)
    ensures Handle(h, s, l).engine.store.profiles != s.engine.store.profiles
            ==> AsksAsAdmin(s, l, ProfileSet) || AsksAsAdmin(s, l, ProfileDelete)
  {
    var f := s.engine.store;
    var d := l.envelope.value.d;
    if l.envelope.value.op == Known(ProfileSet) {
      SetEffect(h, s, l);
      if StoreOk(f) && d.profile.Some? { StoreStepKeepsOk(f, Set(d.profile.value, Admin)); }
    } else if l.envelope.value.op == Known(ProfileActivate) {
      ActivateEffect(h, s, l);
      if StoreOk(f) && d.profileRef.Some? { StoreStepKeepsOk(f, Activate(d.profileRef.value)); }
    } else {
      DeleteEffect(h, s, l);
      if StoreOk(f) && d.profileRef.Some? { StoreStepKeepsOk(f, Delete(d.profileRef.value)); }
    }
  }
}
