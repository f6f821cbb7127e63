/** Layouts over whole runs: what was stored is what is read, and those who asked are told. */
module LayoutRuns {
  import opened Basics
  import opened Protocol
  import opened ProfileStore
  import opened Sessions
  import opened Engines
  import opened Systems
  import opened Runs
  import opened Delivery
  import opened Answers
  import opened Validator
  import Persistence

  /** The step is the panel setting or deleting layout `id`, whatever comes of it. */
  predicate TouchesLayout(s: System, l: Label, id: Text) {
    && l.Frame?
    && (|| (AsksAsAdmin(s, l, ProfileSet) && l.envelope.value.d.profile.Some?
            && l.envelope.value.d.profile.value.id == id)
        || (AsksAsAdmin(s, l, ProfileDelete) && l.envelope.value.d.profileRef == Some(id)))
  }

  /** What is stored under `id`, if anything. */
  function StoredAs(s: System, id: Text): Option<Profile> {
    if id in s.engine.store.profiles then Some(s.engine.store.profiles[id]) else None
  }

  /** No other step changes what is stored under `id`. */
  lemma LayoutKept(h: Host, s: System, l: Label, id: Text)
    requires Enabled(s, l) && !TouchesLayout(s, l, id)
    ensures StoredAs(Step(h, s, l), id) == StoredAs(s, id)
  {
    if l.Frame? && l.envelope.Some? {
      var op := l.envelope.value.op;
      if op == Known(ProfileSet) { SetEffect(h, s, l); }
      else if op == Known(ProfileActivate) { ActivateEffect(h, s, l); }
      else if op == Known(ProfileDelete) { DeleteEffect(h, s, l); }
      else { Untouched(h, s, l); }
    }
  }

  lemma {:induction false} LayoutKeptBetween(h: Host, ss: seq<System>, ls: seq<Label>, i: nat, j: nat, id: Text)
    requires IsRun(h, ss, ls) && i <= j < |ss|
    requires forall t :: i <= t < j ==> !TouchesLayout(ss[t], ls[t], id)
    ensures StoredAs(ss[j], id) == StoredAs(ss[i], id)
  {
    if i < j {
      LayoutKeptBetween(h, ss, ls, i, j - 1, id);
      assert StepAt(h, ss, ls, j - 1);
      LayoutKept(h, ss[j - 1], ls[j - 1], id);
    }
  }

  /** `profile.set`: refused exactly when the layout breaks a rule; else stored, and Ok exactly if saved. */
  lemma SettingAnswers(h: Host, s: System, l: Label)
    requires Calls(s, l, Admin, ProfileSet)
    ensures var p, t := l.envelope.value.d.profile, Handle(h, s, l);
            if p.None? || !ProfileOk(p.value, Admin) then OnlyAnswers(h, s, l, Err(Wire(BadRequest)))
            else
              && t.engine.store.profiles == s.engine.store.profiles[p.value.id := p.value]
              && t.engine.store.active == s.engine.store.active
              && t.answer == if l.world.write.outcome == Persistence.Persisted then Ok(Empty) else Err(Fault)
  {}

  lemma DeletingAnswers(h: Host, s: System, l: Label)
    requires Calls(s, l, Admin, ProfileDelete)
    ensures var id, f, t := l.envelope.value.d.profileRef, s.engine.store, Handle(h, s, l);
            if id.None? then OnlyAnswers(h, s, l, Err(Wire(BadRequest)))
            else if id.value !in f.profiles then OnlyAnswers(h, s, l, Err(Wire(NotFound)))
            else if f.profiles.Keys == {id.value} then OnlyAnswers(h, s, l, Err(Wire(BadRequest)))
            else
              && t.engine.store.profiles == f.profiles - {id.value}
              && t.answer == if l.world.write.outcome == Persistence.Persisted then Ok(Empty) else Err(Fault)
  {
    var id := l.envelope.value.d.profileRef;
    if id.Some? && id.value in s.engine.store.profiles { OnlyOne(s.engine.store.profiles, id.value); }
  }

  lemma ActivatingAnswers(h: Host, s: System, l: Label, role: Role)
    requires Calls(s, l, role, ProfileActivate)
    ensures var id, f, t := l.envelope.value.d.profileRef, s.engine.store, Handle(h, s, l);
            if id.None? then OnlyAnswers(h, s, l, Err(Wire(BadRequest)))
            else if id.value !in f.profiles then OnlyAnswers(h, s, l, Err(Wire(NotFound)))
            else
              && t.engine.store == f.(active := id.value)
              && t.answer == if l.world.write.outcome == Persistence.Persisted then Ok(Empty) else Err(Fault)
  {}

  /** An Ok answer to `profile.set` is to the panel, in the supported version. */
  lemma SetOk(h: Host, s: System, l: Label)
    requires Enabled(s, l) && l.Frame? && Asks(s, l, l.socket, ProfileSet) && Handle(h, s, l).answer.Ok?
    ensures Calls(s, l, Admin, ProfileSet)
  {
    if l.envelope.value.v == PROTOCOL_VERSION {
      var v := s.sockets[l.socket].session;
      if v.RoleOf() == Some(Deck) { DeckGate(l.envelope.value.op, v); }
      if !v.IsReady() { AnswersBeforeAuth(l.envelope.value.op, v); }
    }
  }

  /**
   * Reading what was written. After a `profile.set` is answered Ok, whatever happens in between,
   * anyone signed in who asks for that layout is answered exactly what was set, until the panel sets
   * or deletes that layout again.
   */
  lemma SetThenGet(h: Host, ss: seq<System>, ls: seq<Label>, i: nat, j: nat, p: Profile, role: Role)
    requires IsRun(h, ss, ls) && i < j < |ls|
    requires ls[i].Frame? && Asks(ss[i], ls[i], ls[i].socket, ProfileSet) && ls[i].envelope.value.d.profile == Some(p)
    requires Handle(h, ss[i], ls[i]).answer.Ok?
    requires forall t :: i < t < j ==> !TouchesLayout(ss[t], ls[t], p.id)
    requires Calls(ss[j], ls[j], role, ProfileGet) && ls[j].envelope.value.d.profileRef == Some(p.id)
    ensures Handle(h, ss[j], ls[j]).answer == Ok(Layout(p))
  {
    assert StepAt(h, ss, ls, i);
    SetOk(h, ss[i], ls[i]);
    SettingAnswers(h, ss[i], ls[i]);
    LayoutKeptBetween(h, ss, ls, i + 1, j, p.id);
    LayoutAnswers(h, ss[j], ls[j], role);
  }

  /** And after a `profile.delete` is answered Ok, it is not found, until the panel sets it again. */
  lemma DeleteThenGet(h: Host, ss: seq<System>, ls: seq<Label>, i: nat, j: nat, id: Text, role: Role)
    requires IsRun(h, ss, ls) && i < j < |ls|
    requires Calls(ss[i], ls[i], Admin, ProfileDelete) && ls[i].envelope.value.d.profileRef == Some(id)
    requires Handle(h, ss[i], ls[i]).answer.Ok?
    requires forall t :: i < t < j ==> !TouchesLayout(ss[t], ls[t], id)
    requires Calls(ss[j], ls[j], role, ProfileGet) && ls[j].envelope.value.d.profileRef == Some(id)
    ensures Handle(h, ss[j], ls[j]).answer == Err(Wire(NotFound))
  {
    assert StepAt(h, ss, ls, i);
    DeletingAnswers(h, ss[i], ls[i]);
    LayoutKeptBetween(h, ss, ls, i + 1, j, id);
    LayoutAnswers(h, ss[j], ls[j], role);
  }

  /** A `profile.set` answered Ok publishes one event: the layout's change. */
  lemma SetPublishes(h: Host, ss: seq<System>, ls: seq<Label>, i: nat)
    requires h.crypto.RoundTrips() && IsRun(h, ss, ls) && i < |ls|
    requires ls[i].Frame? && Asks(ss[i], ls[i], ls[i].socket, ProfileSet) && Handle(h, ss[i], ls[i]).answer.Ok?
    ensures |ss[i + 1].engine.published| == |ss[i].engine.published| + 1
    ensures ss[i + 1].engine.published[|ss[i].engine.published|].op == ProfileChanged
  {
    AlwaysInv(h, ss, ls, i);
    assert StepAt(h, ss, ls, i);
    FrameAnnounces(h, ss[i], ls[i]);
    assert News(Known(ProfileSet)) == [ProfileChanged];
    assert EventsFor([ProfileChanged])[0].op == ProfileChanged;
  }

  /**
   * The live loop. A `profile.set` answered Ok at step `i` is the next event published; and a socket
   * that had subscribed, when it comes to that event no more than 64 behind, is sent it.
   */
  lemma EditsReachDecks(h: Host, ss: seq<System>, ls: seq<Label>, i: nat, j: nat)
    requires h.crypto.RoundTrips() && IsRun(h, ss, ls) && i < j < |ls|
    requires ls[i].Frame? && Asks(ss[i], ls[i], ls[i].socket, ProfileSet) && Handle(h, ss[i], ls[i]).answer.Ok?
    requires ls[j].Receive? && ss[j].sockets[ls[j].reader].cursor == |ss[i].engine.published|
    requires |ss[j].engine.published| <= |ss[i].engine.published| + 64
    requires SubscribedBefore(ss, ls, j, ls[j].reader, ProfileSubscribe)
    ensures Delivers(ss[j], ls[j]) == Some(|ss[i].engine.published|)
    ensures ss[j].engine.published[|ss[i].engine.published|].op == ProfileChanged
  {
    SetPublishes(h, ss, ls, i);
    BusGrows(h, ss, ls, i + 1, j);
    DeliveredExactly(h, ss, ls, j);
  }

  // The active layout.

  /** The step asks for some layout to be activated, or is the panel deleting this one. */
  predicate MovesActive(s: System, l: Label, id: Text) {
    && l.Frame?
    && (|| Asks(s, l, l.socket, ProfileActivate)
        || (AsksAsAdmin(s, l, ProfileDelete) && l.envelope.value.d.profileRef == Some(id)))
  }

  lemma ActiveKept(h: Host, s: System, l: Label)
    requires Enabled(s, l) && !MovesActive(s, l, s.engine.store.active)
    ensures Step(h, s, l).engine.store.active == s.engine.store.active
  {
    if l.Frame? && l.envelope.Some? {
      var op := l.envelope.value.op;
      if op == Known(ProfileSet) { SetEffect(h, s, l); }
      else if op == Known(ProfileDelete) { DeleteEffect(h, s, l); }
      else { Untouched(h, s, l); }
    }
  }

  lemma {:induction false} ActiveKeptBetween(h: Host, ss: seq<System>, ls: seq<Label>, i: nat, j: nat, id: Text)
    requires IsRun(h, ss, ls) && i <= j < |ss| && ss[i].engine.store.active == id
    requires forall t :: i <= t < j ==> !MovesActive(ss[t], ls[t], id)
    ensures ss[j].engine.store.active == id
  {
    if i < j {
      ActiveKeptBetween(h, ss, ls, i, j - 1, id);
      assert StepAt(h, ss, ls, j - 1);
      ActiveKept(h, ss[j - 1], ls[j - 1]);
    }
  }

  /**
   * After a `profile.activate` is answered Ok, by a deck or the panel, every deck that signs in is
   * told to show that layout, until another is activated or the panel deletes it.
   */
  lemma ActivateThenSignIn(h: Host, ss: seq<System>, ls: seq<Label>, i: nat, j: nat, id: Text, role: Role)
    requires h.crypto.RoundTrips() && IsRun(h, ss, ls) && i < j < |ls|
    requires Calls(ss[i], ls[i], role, ProfileActivate) && ls[i].envelope.value.d.profileRef == Some(id)
    requires Handle(h, ss[i], ls[i]).answer.Ok?
    requires forall t :: i < t < j ==> !MovesActive(ss[t], ls[t], id)
    requires Accepts(h, ss[j], ls[j]) && Enabled(ss[j], ls[j])
    ensures Handle(h, ss[j], ls[j]).answer == Ok(Granted(Deck, id))
  {
    assert StepAt(h, ss, ls, i);
    ActivatingAnswers(h, ss[i], ls[i], role);
    ActiveKeptBetween(h, ss, ls, i + 1, j, id);
    AlwaysInv(h, ss, ls, j);
    SignInEffect(h, ss[j], ls[j]);
  }
}
