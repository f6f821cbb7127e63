/** Ops, roles, the capability matrix, and the payloads the engine looks into. */
module Protocol {
  import opened Basics

  datatype KnownOp =
    | SessionHello | SessionAuth
    | PairRequest | PairBegin | PairCancel | PairListDevices | PairRevoke
    | SystemPing
    | InputKeyCombo | InputKeySequence | InputText | InputMedia | InputMouse
    | ActionRun | ActionList | ActionSet | ActionDelete
    | ProfileGet | ProfileList | ProfileSubscribe | ProfileActivate | ProfileSet | ProfileDelete
    | TelemetrySubscribe
    | SettingsGet | SettingsSet
    | ProfileChanged | TelemetryUpdate | DeviceChanged | PairingState | EngineShutdown

  /** An op name on the wire; names the engine does not know are kept, not rejected. */
  datatype Op = Known(op: KnownOp) | Unknown(raw: Text)

  datatype Role = Deck | Admin

  datatype Access = PreAuth | Authenticated | AdminOnly | EventOnly

  /** The capability matrix. */
  function AccessFor(op: KnownOp): Access {
    match op
    case SessionHello | SessionAuth | PairRequest => PreAuth
    case PairBegin | PairCancel | PairListDevices | PairRevoke => AdminOnly
    case SystemPing | InputKeyCombo | InputKeySequence | InputText | InputMedia | InputMouse
       | ActionRun | ActionList | ProfileGet | ProfileList | ProfileSubscribe
       | TelemetrySubscribe => Authenticated
    case ProfileActivate => Authenticated
    case ActionSet | ActionDelete | ProfileSet | ProfileDelete | SettingsGet | SettingsSet => AdminOnly
    case ProfileChanged | TelemetryUpdate | DeviceChanged | PairingState | EngineShutdown => EventOnly
  }

  /** What a deck is for: the thirteen ops any signed-in socket may call. */
  function DeckOps(): set<KnownOp> {
    { SystemPing, InputKeyCombo, InputKeySequence, InputText, InputMedia, InputMouse, ActionRun, ActionList,
      ProfileGet, ProfileList, ProfileSubscribe, TelemetrySubscribe, ProfileActivate }
  }

  /** What only the control panel may call: ten ops. */
  function AdminOps(): set<KnownOp> {
    { PairBegin, PairCancel, PairListDevices, PairRevoke, ActionSet, ActionDelete, ProfileSet, ProfileDelete,
      SettingsGet, SettingsSet }
  }

  function HandshakeOps(): set<KnownOp> { {SessionHello, SessionAuth, PairRequest} }

  predicate IsInput(op: KnownOp) {
    op.InputKeyCombo? || op.InputKeySequence? || op.InputText? || op.InputMedia? || op.InputMouse?
  }

  predicate IsEvent(op: KnownOp) {
    op.ProfileChanged? || op.TelemetryUpdate? || op.DeviceChanged? || op.PairingState? || op.EngineShutdown?
  }

  /** Who an event is for. */
  datatype Audience = ProfileSubscribers | TelemetrySubscribers | AdminsOnly | AllAuthenticated

  function AudienceFor(op: KnownOp): Audience {
    match op
    case ProfileChanged => ProfileSubscribers
    case TelemetryUpdate => TelemetrySubscribers
    case DeviceChanged | PairingState => AdminsOnly
    case EngineShutdown => AllAuthenticated
    case _ => AdminsOnly
  }

  // Payloads.

  datatype HelloRequest = HelloRequest(deviceId: Option<Text>, adminToken: Option<Text>)

  datatype PairRequestBody = PairRequestBody(
    code: Text, devicePubkey: Text, deviceName: Text, platform: nat, proof: Text)

  datatype Grid = Grid(cols: nat, rows: nat)
  datatype Position = Position(col: nat, row: nat)
  datatype Button = Button(id: Text, pos: Position, onTap: Option<Op>, onLongPress: Option<Op>)
  datatype Page = Page(id: Text, name: Text, buttons: seq<Button>)
  datatype Profile = Profile(id: Text, name: Text, grid: Grid, pages: seq<Page>)

  datatype ProfileSummary = ProfileSummary(id: Text, name: Text, active: bool)
  datatype DeviceInfo = DeviceInfo(
    deviceId: Text, name: Text, platform: nat, pairedAt: int, lastSeen: int, connected: bool)

  /**
   * What the JSON value `d` deserialises to under each request type; `None` where it does not.
   * One value may parse as several types, exactly as one JSON object may.
   */
  datatype Payload = Payload(
    hello: Option<HelloRequest>,
    auth: Option<Text>,
    pair: Option<PairRequestBody>,
    pairBegin: Option<Option<nat>>,
    deviceRef: Option<Text>,
    profileRef: Option<Text>,
    profile: Option<Profile>,
    ping: Option<int>)

  datatype Envelope = Envelope(v: nat, id: Option<Text>, op: Op, d: Payload)

  const PROTOCOL_VERSION: nat := 1

  /** Section 4.1 of the protocol: exactly one of the two forms of `session.hello`. */
  predicate ValidHello(r: HelloRequest) {
    r.deviceId.Some? != r.adminToken.Some?
  }

  const DEFAULT_TTL_SECONDS: nat := 120

  /** `ttl_seconds` must lie in 30..=300 when given. */
  predicate ValidTtl(ttl: Option<nat>) {
    ttl.Some? ==> 30 <= ttl.value <= 300
  }

  // Replies.

  datatype Body =
    | Challenge(nonce: Text, hostId: Text)
    | Granted(role: Role, activeProfileId: Text)
    | Paired(pairedId: Text, pairingHost: Text)
    | WindowOpened(code: Text, expiresAt: int)
    | Devices(devices: seq<DeviceInfo>)
    | Layout(layout: Profile)
    | Layouts(layouts: seq<ProfileSummary>)
    | Pong(tClient: int)
    | External
    | Empty

  datatype MessageType = Res | ErrMsg

  datatype Reply = Reply(t: MessageType, id: Option<Text>, op: Op, answer: Result<Body, ErrorCode>)
}
