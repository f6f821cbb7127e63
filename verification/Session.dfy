/** One socket's authentication state, and what it has asked to be told about. */
module Sessions {
  import opened Basics
  import opened ConstantTime
  import opened Protocol
  import opened Signing
  import opened DeviceRegistry
  import opened Pairing
  import opened Validator

  datatype State =
    | Unauthenticated
    | AwaitingAuth(deviceId: Text, nonce: Nonce)
    | Ready(role: Role, device: Option<Text>)

  datatype SessionValue = SessionValue(
    loopback: bool, state: State, profileSubscribed: bool, telemetrySubscribed: bool)
  {
    predicate IsReady() { state.Ready? }

    function RoleOf(): Option<Role> {
      if state.Ready? then Some(state.role) else None
    }

    function DeviceOf(): Option<Text> {
      match state
      case Ready(_, device) => device
      case AwaitingAuth(deviceId, _) => Some(deviceId)
      case Unauthenticated => None
    }

    /** Whether this socket should be sent an event with the given audience. */
    predicate Wants(audience: Audience) {
      && IsReady()
      && match audience
         case ProfileSubscribers => profileSubscribed
         case TelemetrySubscribers => telemetrySubscribed
         case AdminsOnly => RoleOf() == Some(Admin)
         case AllAuthenticated => true
    }
  }

  /** A socket is about a device from the challenge on, and the panel about none. */
  predicate IsAbout(st: State, id: Text) {
    (st.AwaitingAuth? && st.deviceId == id) || (st.Ready? && st.device == Some(id))
  }

  function Opened(loopback: bool): SessionValue {
    SessionValue(loopback, Unauthenticated, false, false)
  }

  // Capability gating.

  function Authorize(op: Op, s: SessionValue): Result<KnownOp, Error> {
    match op
    case Unknown(_) => Err(Wire(UnknownOp))
    case Known(known) =>
      match AccessFor(known)
      case PreAuth => if s.IsReady() then Err(Wire(BadRequest)) else Ok(known)
      case Authenticated => if s.IsReady() then Ok(known) else Err(Wire(NotAuthenticated))
      case AdminOnly =>
        (match s.RoleOf()
         case Some(Admin) => Ok(known)
         case Some(Deck) => Err(Wire(NotAuthorized))
         case None => Err(Wire(NotAuthenticated)))
      case EventOnly => Err(Wire(UnknownOp))
  }

  /** The gate for a signed-in deck, op by op: thirteen go through, ten are the panel's. */
  lemma DeckGate(op: Op, s: SessionValue)
    requires s.RoleOf() == Some(Deck)
    ensures Authorize(op, s) == if op.Unknown? || IsEvent(op.op) then Err(Wire(UnknownOp))
                                else if op.op in HandshakeOps() then Err(Wire(BadRequest))
                                else if op.op in AdminOps() then Err(Wire(NotAuthorized))
                                else Ok(op.op)
    ensures Authorize(op, s).Ok? <==> op.Known? && op.op in DeckOps()
  {}

  /** The gate for the control panel: those thirteen and the ten of its own. */
  lemma AdminGate(op: Op, s: SessionValue)
    requires s.RoleOf() == Some(Admin)
    ensures Authorize(op, s) == if op.Unknown? || IsEvent(op.op) then Err(Wire(UnknownOp))
                                else if op.op in HandshakeOps() then Err(Wire(BadRequest))
                                else Ok(op.op)
    ensures Authorize(op, s).Ok? <==> op.Known? && op.op in DeckOps() + AdminOps()
  {}

  /**
   * A stored button action is accepted exactly when pressing it would be, and exactly for the ops
   * listed for its author's role.
   */
  lemma StoredCheckMatchesPress(op: Op, s: SessionValue)
    requires s.IsReady()
    ensures ActionPermitted(Some(op), s.state.role) <==> Authorize(op, s).Ok?
    ensures ActionPermitted(Some(op), s.state.role) <==>
              op.Known? && (op.op in DeckOps() || (s.state.role == Admin && op.op in AdminOps()))
  {
    if s.state.role == Deck { DeckGate(op, s); } else { AdminGate(op, s); }
  }

  /**
   * The gate for a socket still in its handshake: the three handshake ops go through, a name that
   * is no request is unknown, and every other request is refused alike, whatever role it needs.
   */
  lemma AnswersBeforeAuth(op: Op, s: SessionValue)
    requires !s.IsReady()
    ensures Authorize(op, s) == if op.Unknown? || IsEvent(op.op) then Err(Wire(UnknownOp))
                                else if op.op in HandshakeOps() then Ok(op.op)
                                else Err(Wire(NotAuthenticated))
  {}

  // The handshake.

  /** The handshake context that does not belong to the session. */
  datatype Context = Context(host: Host, devices: Devices, activeProfileId: Text)

  datatype Turn<T> = Turn(session: SessionValue, answer: Result<T, Error>)

  function HelloAdmin(s: SessionValue, token: Text, ctx: Context): Turn<Body> {
    var matches := ConstantTimeEq(token, ctx.host.adminToken);
    if !s.loopback || !matches then Turn(s, Err(Wire(NotAuthorized)))
    else Turn(s.(state := Ready(Admin, None)), Ok(Granted(Admin, ctx.activeProfileId)))
  }

  function HelloDeck(s: SessionValue, id: Text, ctx: Context, entropy: Option<Nonce>): Turn<Body> {
    match VerifyingKey(ctx.host.crypto, ctx.devices, id)
    case Err(e) => Turn(s, Err(e))
    case Ok(_) =>
      match entropy
      case None => Turn(s, Err(Fault))
      case Some(nonce) =>
        Turn(s.(state := AwaitingAuth(id, nonce)), Ok(Challenge(ctx.host.crypto.encode64(nonce), ctx.host.hostId)))
  }

  function Hello(s: SessionValue, r: HelloRequest, ctx: Context, entropy: Option<Nonce>): Turn<Body> {
    if s.IsReady() then Turn(s, Err(Wire(BadRequest)))
    else if !ValidHello(r) then Turn(s, Err(Wire(BadRequest)))
    else if r.adminToken.Some? then HelloAdmin(s, r.adminToken.value, ctx)
    else HelloDeck(s, r.deviceId.value, ctx, entropy)
  }

  function Auth(s: SessionValue, signature: Text, ctx: Context): Turn<Body> {
    if !s.state.AwaitingAuth? then Turn(s, Err(Wire(NotAuthenticated)))
    else
      match VerifyingKey(ctx.host.crypto, ctx.devices, s.state.deviceId)
      case Err(e) => Turn(s, Err(e))
      case Ok(key) =>
        match DecodeFixed(ctx.host.crypto, signature, SIGNATURE_LEN)
        case Err(e) => Turn(s, Err(e))
        case Ok(sig) =>
          var message := SessionAuthMessage(s.state.nonce, s.state.deviceId, ctx.host.hostId);
          if !ctx.host.crypto.verifyStrict(key, message, sig)
          then Turn(s, Err(Wire(BadSignature)))
          else Turn(s.(state := Ready(Deck, Some(s.state.deviceId))), Ok(Granted(Deck, ctx.activeProfileId)))
  }

  /** A signature over this session's own latest challenge, by the key registered right now for its device. */
  ghost predicate Signed(s: SessionValue, signature: Text, ctx: Context)
    requires s.state.AwaitingAuth?
  {
    && VerifyingKey(ctx.host.crypto, ctx.devices, s.state.deviceId).Ok?
    && (exists sig ::
          && ctx.host.crypto.decode64(signature) == Some(sig)
          && |sig| == SIGNATURE_LEN
          && ctx.host.crypto.verifyStrict(
               VerifyingKey(ctx.host.crypto, ctx.devices, s.state.deviceId).value,
               SessionAuthMessage(s.state.nonce, s.state.deviceId, ctx.host.hostId), sig))
  }

  /** `session.hello` grants admin exactly to a loopback peer presenting the admin token alone, never deck. */
  lemma HelloGrants(s: SessionValue, r: HelloRequest, ctx: Context, entropy: Option<Nonce>)
    requires !s.IsReady()
    ensures var t := Hello(s, r, ctx, entropy);
            && (t.session.IsReady() <==>
                  s.loopback && r.deviceId.None? && r.adminToken == Some(ctx.host.adminToken))
            && (t.session.IsReady() ==> t.session.state == Ready(Admin, None))
            && (t.answer.Err? ==> t.session == s)
  {
    if r.adminToken.Some? {
      DecidesEquality(r.adminToken.value, ctx.host.adminToken);
    }
  }

  /**
   * `session.hello` sends a challenge exactly when the device alone is named, its registered key
   * loads and entropy is to be had; the challenge carries the drawn nonce, which the session awaits.
   */
  lemma HelloChallenges(s: SessionValue, r: HelloRequest, ctx: Context, entropy: Option<Nonce>)
    requires !s.IsReady()
    ensures var t := Hello(s, r, ctx, entropy);
            t.answer.Ok? && t.answer.value.Challenge? <==>
              && r.deviceId.Some? && r.adminToken.None? && entropy.Some?
              && VerifyingKey(ctx.host.crypto, ctx.devices, r.deviceId.value).Ok?
    ensures var t := Hello(s, r, ctx, entropy);
            t.answer.Ok? && t.answer.value.Challenge? ==>
              && r.deviceId.Some? && entropy.Some?
              && t.session == s.(state := AwaitingAuth(r.deviceId.value, entropy.value))
              && t.answer == Ok(Challenge(ctx.host.crypto.encode64(entropy.value), ctx.host.hostId))
  {}

  /** `session.auth` succeeds exactly on a signature over this session's own challenge; otherwise nothing changes. */
  lemma AuthGrants(s: SessionValue, signature: Text, ctx: Context)
    ensures var t := Auth(s, signature, ctx);
            && (t.answer.Ok? <==> s.state.AwaitingAuth? && Signed(s, signature, ctx))
            && (t.answer.Ok? ==> t.session == s.(state := Ready(Deck, Some(s.state.deviceId))))
            && (t.answer.Err? ==> t.session == s)
  {}

  /** Every way `session.hello` is refused, and what a granted admin is told. */
  lemma HelloAnswers(s: SessionValue, r: HelloRequest, ctx: Context, entropy: Option<Nonce>)
    ensures var answer := Hello(s, r, ctx, entropy).answer;
            if s.state.Ready? || r.deviceId.Some? == r.adminToken.Some? then answer == Err(Wire(BadRequest))
            else if r.adminToken.Some? then
              answer == if s.loopback && r.adminToken.value == ctx.host.adminToken
                        then Ok(Granted(Admin, ctx.activeProfileId)) else Err(Wire(NotAuthorized))
            else if r.deviceId.value !in ctx.devices then answer == Err(Wire(UnknownDevice))
            else if LoadKey(ctx.host.crypto, ctx.devices[r.deviceId.value]).Err? then answer == Err(Fault)
            else if entropy == None then answer == Err(Fault)
            else answer == Ok(Challenge(ctx.host.crypto.encode64(entropy.value), ctx.host.hostId))
  {
    if r.adminToken.Some? {
      DecidesEquality(r.adminToken.value, ctx.host.adminToken);
    }
  }

  /** Every way `session.auth` is refused, and what a granted deck is told. */
  lemma AuthAnswers(s: SessionValue, signature: Text, ctx: Context)
    ensures var answer := Auth(s, signature, ctx).answer;
            if !s.state.AwaitingAuth? then answer == Err(Wire(NotAuthenticated))
            else if s.state.deviceId !in ctx.devices then answer == Err(Wire(UnknownDevice))
            else if LoadKey(ctx.host.crypto, ctx.devices[s.state.deviceId]).Err? then answer == Err(Fault)
            else
              var sig := ctx.host.crypto.decode64(signature);
              if sig.None? || |sig.value| != 64 then answer == Err(Wire(BadRequest))
              else answer == if Signed(s, signature, ctx) then Ok(Granted(Deck, ctx.activeProfileId))
                             else Err(Wire(BadSignature))
  {}

  /** The session object. */
  class Session {
    const loopback: bool
    var state: State
    var profileSubscribed: bool
    var telemetrySubscribed: bool

    constructor (loopback: bool)
      ensures Value() == Opened(loopback)
    {
      this.loopback := loopback;
      state := Unauthenticated;
      profileSubscribed, telemetrySubscribed := false, false;
    }

    function Value(): SessionValue
      reads this
    {
      SessionValue(loopback, state, profileSubscribed, telemetrySubscribed)
    }

    method SubscribeProfile()
      modifies this`profileSubscribed
      ensures Value() == old(Value()).(profileSubscribed := true)
    {
      profileSubscribed := true;
    }

    method SubscribeTelemetry()
      modifies this`telemetrySubscribed
      ensures Value() == old(Value()).(telemetrySubscribed := true)
    {
      telemetrySubscribed := true;
    }

    method HandleHello(r: HelloRequest, host: Host, registry: Registry, activeProfileId: Text, entropy: Option<Nonce>)
      returns (answer: Result<Body, Error>)
      requires registry.crypto == host.crypto
      modifies this`state
      ensures Turn(Value(), answer) == Hello(old(Value()), r, Context(host, registry.devices, activeProfileId), entropy)
    {
      if state.Ready? {
        return Err(Wire(BadRequest));
      }
      if r.deviceId.Some? == r.adminToken.Some? {
        return Err(Wire(BadRequest));
      }
      if r.adminToken.Some? {
        var fromLoopback := loopback;
        var tokenMatches := ConstantTimeEq(r.adminToken.value, host.adminToken);
        if !fromLoopback || !tokenMatches {
          return Err(Wire(NotAuthorized));
        }
        state := Ready(Admin, None);
        return Ok(Granted(Admin, activeProfileId));
      }
      var known := VerifyingKey(registry.crypto, registry.devices, r.deviceId.value);
      if known.Err? {
        return Err(known.error);
      }
      if entropy.None? {
        return Err(Fault);
      }
      var challenge := Challenge(host.crypto.encode64(entropy.value), host.hostId);
      state := AwaitingAuth(r.deviceId.value, entropy.value);
      return Ok(challenge);
    }

    method HandleAuth(signature: Text, host: Host, registry: Registry, activeProfileId: Text)
      returns (answer: Result<Body, Error>)
      requires registry.crypto == host.crypto
      modifies this`state
      ensures Turn(Value(), answer) == Auth(old(Value()), signature, Context(host, registry.devices, activeProfileId))
    {
      if !state.AwaitingAuth? {
        return Err(Wire(NotAuthenticated));
      }
      var deviceId, nonce := state.deviceId, state.nonce;
      var key := VerifyingKey(registry.crypto, registry.devices, deviceId);
      if key.Err? {
        return Err(key.error);
      }
      var sig := DecodeFixed(host.crypto, signature, SIGNATURE_LEN);
      if sig.Err? {
        return Err(sig.error);
      }
      var message := BuildSessionAuthMessage(nonce, deviceId, host.hostId);
      if !host.crypto.verifyStrict(key.value, message, sig.value) {
        return Err(Wire(BadSignature));
      }
      state := Ready(Deck, Some(deviceId));
      return Ok(Granted(Deck, activeProfileId));
    }
  }
}
