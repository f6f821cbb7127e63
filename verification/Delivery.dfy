/** Events over whole runs: what each socket is sent, exactly. */
module Delivery {
  import opened Basics
  import opened Protocol
  import opened Sessions
  import opened Engines
  import opened Systems
  import opened Runs

  lemma BusStep(h: Host, s: System, l: Label)
    requires Enabled(s, l)
    ensures s.engine.published <= Step(h, s, l).engine.published
  {
    if l.Frame? && l.envelope.Some? {
      PublishedGrows(h, s, l);
    }
  }

  lemma PrefixTransitive(a: seq<Event>, b: seq<Event>, c: seq<Event>)
    requires a <= b <= c
    ensures a <= c
  {}

  lemma {:induction false} BusGrows(h: Host, ss: seq<System>, ls: seq<Label>, n: nat, m: nat)
    requires IsRun(h, ss, ls) && n <= m < |ss|
    ensures ss[n].engine.published <= ss[m].engine.published
  {
    if n < m {
      BusGrows(h, ss, ls, n, m - 1);
      assert StepAt(h, ss, ls, m - 1);
      BusStep(h, ss[m - 1], ls[m - 1]);
      PrefixTransitive(ss[n].engine.published, ss[m - 1].engine.published, ss[m].engine.published);
    }
  }

  lemma {:induction false} CursorsGrow(h: Host, ss: seq<System>, ls: seq<Label>, n: nat, m: nat, k: nat)
    requires h.crypto.RoundTrips() && IsRun(h, ss, ls) && n <= m < |ss|
    requires k in ss[n].sockets && k in ss[m].sockets
    ensures ss[n].sockets[k].cursor <= ss[m].sockets[k].cursor
  {
    if n < m {
      StillLive(h, ss, ls, n, m - 1, m, k);
      CursorsGrow(h, ss, ls, n, m - 1, k);
      MoveAt(h, ss, ls, m - 1, k);
    }
  }

  /** A receiver only moves forward, on its own `Receive` step, past one event or past what it has lost to lag. */
  lemma CursorMoves(h: Host, s: System, l: Label, k: nat)
    requires Enabled(s, l) && k in s.sockets && k in Step(h, s, l).sockets && k < s.nextSocket
    ensures var c, d := s.sockets[k].cursor, Step(h, s, l).sockets[k].cursor;
            if l != Receive(k) then d == c
            else if |s.engine.published| > c + 64 then d == |s.engine.published| - 64 && Delivers(s, l) == None
            else d == c + 1 && (Delivers(s, l).Some? ==> Delivers(s, l) == Some(c))
  {}

  /**
   * Delivery. Over any run, what one socket is sent is a subsequence of what was published: later
   * deliveries carry strictly later events, each sent as published, while the socket was Ready and
   * wanted it, and never an admin-only event to a deck.
   */
  lemma DeliveriesAreSubsequence(h: Host, ss: seq<System>, ls: seq<Label>, i: nat, j: nat)
    requires h.crypto.RoundTrips() && IsRun(h, ss, ls) && i < j < |ls|
    requires ls[i].Receive? && ls[j] == Receive(ls[i].reader)
    requires Delivers(ss[i], ls[i]).Some? && Delivers(ss[j], ls[j]).Some?
    ensures var a, b := Delivers(ss[i], ls[i]).value, Delivers(ss[j], ls[j]).value;
            && a < b < |ss[j].engine.published|
            && ss[j].engine.published[a] == ss[i].engine.published[a]
  {
    var k := ls[i].reader;
    AlwaysInv(h, ss, ls, i);
    assert StepAt(h, ss, ls, i) && StepAt(h, ss, ls, j);
    StillLive(h, ss, ls, i, i + 1, j, k);
    CursorMoves(h, ss[i], ls[i], k);
    CursorsGrow(h, ss, ls, i + 1, j, k);
    BusGrows(h, ss, ls, i, j);
  }

  /** Everything from index `n` on is an event carrying its own audience. */
  ghost predicate FaithfulFrom(published: seq<Event>, n: nat) {
    forall p :: n <= p < |published| ==>
      published[p].audience == AudienceFor(published[p].op) && IsEvent(published[p].op)
  }

  lemma HandlerPublishes(h: Host, e: EngineState, s: SessionValue, op: KnownOp, d: Payload, x: World, now: nat)
    requires !IsEvent(op)
    ensures FaithfulFrom(Dispatch(h, e, s, op, d, x, now).engine.published, |e.published|)
  {
    match op
    case ProfileActivate | ProfileDelete | ProfileSet =>
    case _ =>
  }

  lemma FramePublishes(h: Host, s: System, l: Label, p: nat)
    requires Enabled(s, l) && l.Frame? && l.envelope.Some?
    requires |s.engine.published| <= p < |Handle(h, s, l).engine.published|
    ensures var ev := Handle(h, s, l).engine.published[p]; ev.audience == AudienceFor(ev.op) && IsEvent(ev.op)
  {
    var env, v := l.envelope.value, s.sockets[l.socket].session;
    if env.v == PROTOCOL_VERSION && Authorize(env.op, v).Ok? {
      AuthorizedIsRequest(env.op, v);
      HandlerPublishes(h, s.engine, v, env.op.op, env.d, l.world, s.clock);
    }
  }

  /** Events keep the audience of their op from publication to delivery. */
  lemma {:induction false} AudiencesAreFaithful(h: Host, ss: seq<System>, ls: seq<Label>, n: nat, p: nat)
    requires IsRun(h, ss, ls) && n < |ss| && p < |ss[n].engine.published|
    ensures ss[n].engine.published[p].audience == AudienceFor(ss[n].engine.published[p].op)
    ensures IsEvent(ss[n].engine.published[p].op)
    decreases n
  {
    assert n > 0;
    assert StepAt(h, ss, ls, n - 1);
    var s, l := ss[n - 1], ls[n - 1];
    if p < |s.engine.published| {
      AudiencesAreFaithful(h, ss, ls, n - 1, p);
      BusGrows(h, ss, ls, n - 1, n);
    } else if l.Frame? && l.envelope.Some? {
      FramePublishes(h, s, l, p);
    }
  }

  // Subscriptions.

  /** The step is an authenticated socket `k` asking for `op`. */
  predicate Subscribes(s: System, l: Label, k: nat, op: KnownOp) {
    ReachesHandler(s, l) && Asks(s, l, k, op)
  }

  lemma HandlerSubscribes(h: Host, e: EngineState, s: SessionValue, op: KnownOp, d: Payload, x: World, now: nat)
    requires !IsEvent(op)
    ensures var t := Dispatch(h, e, s, op, d, x, now).session;
            && t.profileSubscribed == (s.profileSubscribed || op == ProfileSubscribe)
            && t.telemetrySubscribed == (s.telemetrySubscribed || op == TelemetrySubscribe)
  {
    match op
    case SessionHello =>
    case SessionAuth =>
    case ProfileActivate | ProfileDelete | ProfileSet =>
    case _ =>
  }

  /** What one frame can do to the subscriptions: set the one it asks for. */
  lemma FrameSubscribes(h: Host, s: System, l: Label)
    requires Enabled(s, l) && l.Frame? && l.envelope.Some?
    ensures var before, after := s.sockets[l.socket].session, Handle(h, s, l).session;
            && (after.profileSubscribed <==>
                  before.profileSubscribed || Subscribes(s, l, l.socket, ProfileSubscribe))
            && (after.telemetrySubscribed <==>
                  before.telemetrySubscribed || Subscribes(s, l, l.socket, TelemetrySubscribe))
  {
    var env, v := l.envelope.value, s.sockets[l.socket].session;
    if env.v == PROTOCOL_VERSION && Authorize(env.op, v).Ok? {
      AuthorizedIsRequest(env.op, v);
      HandlerSubscribes(h, s.engine, v, env.op.op, env.d, l.world, s.clock);
    }
  }

  lemma {:induction false} ProfileSubscriptionOrigin(h: Host, ss: seq<System>, ls: seq<Label>, n: nat, k: nat)
    returns (m: nat)
    requires IsRun(h, ss, ls) && n < |ss| && k in ss[n].sockets && ss[n].sockets[k].session.profileSubscribed
    ensures m < n && Subscribes(ss[m], ls[m], k, ProfileSubscribe)
    decreases n
  {
    assert n > 0;
    m := n - 1;
    assert StepAt(h, ss, ls, m);
    if ls[m].Frame? && ls[m].envelope.Some? { FrameSubscribes(h, ss[m], ls[m]); }
    if !Subscribes(ss[m], ls[m], k, ProfileSubscribe) {
      m := ProfileSubscriptionOrigin(h, ss, ls, n - 1, k);
    }
  }

  lemma {:induction false} TelemetrySubscriptionOrigin(h: Host, ss: seq<System>, ls: seq<Label>, n: nat, k: nat)
    returns (m: nat)
    requires IsRun(h, ss, ls) && n < |ss| && k in ss[n].sockets && ss[n].sockets[k].session.telemetrySubscribed
    ensures m < n && Subscribes(ss[m], ls[m], k, TelemetrySubscribe)
    decreases n
  {
    assert n > 0;
    m := n - 1;
    assert StepAt(h, ss, ls, m);
    if ls[m].Frame? && ls[m].envelope.Some? { FrameSubscribes(h, ss[m], ls[m]); }
    if !Subscribes(ss[m], ls[m], k, TelemetrySubscribe) {
      m := TelemetrySubscriptionOrigin(h, ss, ls, n - 1, k);
    }
  }

  lemma StepSubscribes(h: Host, s: System, l: Label, k: nat)
    requires Enabled(s, l) && k in s.sockets && k in Step(h, s, l).sockets && k < s.nextSocket
    ensures var before, after := s.sockets[k].session, Step(h, s, l).sockets[k].session;
            && (after.profileSubscribed <==> before.profileSubscribed || Subscribes(s, l, k, ProfileSubscribe))
            && (after.telemetrySubscribed <==> before.telemetrySubscribed || Subscribes(s, l, k, TelemetrySubscribe))
  {
    if l.Frame? && l.envelope.Some? { FrameSubscribes(h, s, l); }
  }

  /** One step of a run subscribes exactly the socket that asks. */
  lemma SubscribesAt(h: Host, ss: seq<System>, ls: seq<Label>, i: nat, k: nat)
    requires h.crypto.RoundTrips() && IsRun(h, ss, ls) && i < |ls|
    requires k in ss[i].sockets && k in ss[i + 1].sockets
    ensures var before, after := ss[i].sockets[k].session, ss[i + 1].sockets[k].session;
            && (after.profileSubscribed <==>
                  before.profileSubscribed || Subscribes(ss[i], ls[i], k, ProfileSubscribe))
            && (after.telemetrySubscribed <==>
                  before.telemetrySubscribed || Subscribes(ss[i], ls[i], k, TelemetrySubscribe))
  {
    AlwaysInv(h, ss, ls, i);
    assert StepAt(h, ss, ls, i);
    StepSubscribes(h, ss[i], ls[i], k);
  }

  /** A subscription lasts as long as its socket. */
  lemma {:induction false} SubscriptionStays(h: Host, ss: seq<System>, ls: seq<Label>, m: nat, n: nat,
                                             k: nat, op: KnownOp)
    requires h.crypto.RoundTrips() && IsRun(h, ss, ls) && m < n < |ss| && k in ss[n].sockets
    requires Subscribes(ss[m], ls[m], k, op) && (op == ProfileSubscribe || op == TelemetrySubscribe)
    ensures var s := ss[n].sockets[k].session;
            if op == ProfileSubscribe then s.profileSubscribed else s.telemetrySubscribed
  {
    StillLive(h, ss, ls, m, n - 1, n, k);
    SubscribesAt(h, ss, ls, n - 1, k);
    if m < n - 1 {
      SubscriptionStays(h, ss, ls, m, n - 1, k, op);
    }
  }

  ghost predicate SubscribedBefore(ss: seq<System>, ls: seq<Label>, n: nat, k: nat, op: KnownOp)
    requires n <= |ls| < |ss|
  {
    exists m :: 0 <= m < n && Subscribes(ss[m], ls[m], k, op)
  }

  /**
   * Who is owed an event, by its op alone: a layout or telemetry update, the sockets that have asked
   * for them; news of devices and pairing, the panel; the engine's shutdown, everyone signed in.
   */
  ghost predicate Owed(ss: seq<System>, ls: seq<Label>, n: nat, k: nat, op: KnownOp)
    requires n <= |ls| < |ss| && k in ss[n].sockets
  {
    match op
    case ProfileChanged => SubscribedBefore(ss, ls, n, k, ProfileSubscribe)
    case TelemetryUpdate => SubscribedBefore(ss, ls, n, k, TelemetrySubscribe)
    case DeviceChanged | PairingState => ss[n].sockets[k].session.state == Ready(Admin, None)
    case EngineShutdown => ss[n].sockets[k].session.state.Ready?
    case _ => false
  }

  lemma SubscribedMeans(h: Host, ss: seq<System>, ls: seq<Label>, n: nat, k: nat)
    requires h.crypto.RoundTrips() && IsRun(h, ss, ls) && n < |ss| && k in ss[n].sockets
    ensures ss[n].sockets[k].session.profileSubscribed <==> SubscribedBefore(ss, ls, n, k, ProfileSubscribe)
    ensures ss[n].sockets[k].session.telemetrySubscribed <==> SubscribedBefore(ss, ls, n, k, TelemetrySubscribe)
  {
    if ss[n].sockets[k].session.profileSubscribed {
      var m := ProfileSubscriptionOrigin(h, ss, ls, n, k);
    }
    if ss[n].sockets[k].session.telemetrySubscribed {
      var m := TelemetrySubscriptionOrigin(h, ss, ls, n, k);
    }
    if m :| 0 <= m < n && Subscribes(ss[m], ls[m], k, ProfileSubscribe) {
      SubscriptionStays(h, ss, ls, m, n, k, ProfileSubscribe);
    }
    if m :| 0 <= m < n && Subscribes(ss[m], ls[m], k, TelemetrySubscribe) {
      SubscriptionStays(h, ss, ls, m, n, k, TelemetrySubscribe);
    }
  }

  lemma AdminHasNoDevice(h: Host, ss: seq<System>, ls: seq<Label>, n: nat, k: nat)
    requires h.crypto.RoundTrips() && IsRun(h, ss, ls) && n < |ss| && k in ss[n].sockets
    ensures ss[n].sockets[k].session.RoleOf() == Some(Admin) <==> ss[n].sockets[k].session.state == Ready(Admin, None)
  {
    AlwaysInv(h, ss, ls, n);
  }

  /**
   * Delivery, exactly. A signed-in socket that takes its next event, with no more than 64 unread, is
   * sent it if and only if it is owed it; and it is sent that event, the next one, and no other.
   */
  lemma DeliveredExactly(h: Host, ss: seq<System>, ls: seq<Label>, i: nat)
    requires h.crypto.RoundTrips() && IsRun(h, ss, ls) && i < |ls| && ls[i].Receive?
    requires |ss[i].engine.published| <= ss[i].sockets[ls[i].reader].cursor + 64
    ensures var k := ls[i].reader;
            var next := ss[i].sockets[k].cursor;
            Delivers(ss[i], ls[i]) == if Owed(ss, ls, i, k, ss[i].engine.published[next].op) then Some(next) else None
  {
    var k := ls[i].reader;
    var ev := ss[i].engine.published[ss[i].sockets[k].cursor];
    AudiencesAreFaithful(h, ss, ls, i, ss[i].sockets[k].cursor);
    SubscribedMeans(h, ss, ls, i, k);
    AdminHasNoDevice(h, ss, ls, i, k);
    match ev.op
    case ProfileChanged =>
    case TelemetryUpdate =>
    case DeviceChanged | PairingState =>
    case EngineShutdown =>
    case _ =>
  }

  lemma MovesAt(h: Host, ss: seq<System>, ls: seq<Label>, i: nat, k: nat)
    requires h.crypto.RoundTrips() && IsRun(h, ss, ls) && i < |ls| && k in ss[i].sockets && k in ss[i + 1].sockets
    ensures var c, d := ss[i].sockets[k].cursor, ss[i + 1].sockets[k].cursor;
            if ls[i] != Receive(k) then d == c
            else if |ss[i].engine.published| > c + 64 then d == |ss[i].engine.published| - 64
            else d == c + 1 && d <= |ss[i].engine.published|
  {
    AlwaysInv(h, ss, ls, i);
    assert StepAt(h, ss, ls, i);
    CursorMoves(h, ss[i], ls[i], k);
  }

  /**
   * Exactly what becomes of each event at a reader: an index is passed by a step that delivered it,
   * or by one at which the socket was not owed it, or because the reader had fallen more than 64
   * events behind. Nothing is passed any other way.
   */
  lemma CursorStep(h: Host, ss: seq<System>, ls: seq<Label>, i: nat, k: nat, p: nat)
    requires h.crypto.RoundTrips() && IsRun(h, ss, ls) && i < |ls| && k in ss[i].sockets && k in ss[i + 1].sockets
    requires ss[i].sockets[k].cursor <= p < ss[i + 1].sockets[k].cursor
    ensures ls[i] == Receive(k) && p < |ss[i].engine.published|
    ensures || p + 64 < |ss[i].engine.published|
            || Delivers(ss[i], ls[i]) == (if Owed(ss, ls, i, k, ss[i].engine.published[p].op) then Some(p) else None)
  {
    MovesAt(h, ss, ls, i, k);
    if |ss[i].engine.published| <= ss[i].sockets[k].cursor + 64 {
      DeliveredExactly(h, ss, ls, i);
    }
  }

  /** News of devices or pairing reaches no deck: only a peer that had presented the admin token. */
  lemma PanelNewsNeedsToken(h: Host, ss: seq<System>, ls: seq<Label>, i: nat) returns (m: nat)
    requires h.crypto.RoundTrips() && IsRun(h, ss, ls) && i < |ls| && ls[i].Receive?
    requires Delivers(ss[i], ls[i]).Some?
    requires ss[i].engine.published[Delivers(ss[i], ls[i]).value].op in {DeviceChanged, PairingState}
    ensures m < i && PresentsToken(h, ss[m], ls[m], ls[i].reader)
  {
    DeliveredExactly(h, ss, ls, i);
    m := AdminOrigin(h, ss, ls, i, ls[i].reader);
  }
}
