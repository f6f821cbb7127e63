/** Deck layouts: what the store keeps, in memory and on disk. */
module ProfileStore {
  import opened Basics
  import opened Ordered
  import opened Protocol
  import opened Validator
  import opened Persistence

  datatype StoreFile = StoreFile(profiles: map<Text, Profile>, active: Text)

  /** The promise every store state keeps. */
  ghost predicate StoreOk(f: StoreFile) {
    && f.profiles != map[]
    && f.active in f.profiles
    && (forall id :: id in f.profiles ==> f.profiles[id].id == id && ProfileOk(f.profiles[id], Admin))
  }

  // Reading.

  /** The active profile, falling back to the first one when the active id is stale. */
  function Active(f: StoreFile): Option<Profile> {
    if f.active in f.profiles then Some(f.profiles[f.active])
    else if f.profiles.Keys != {} then Some(f.profiles[FirstKey(f.profiles.Keys)])
    else None
  }

  function ActiveId(f: StoreFile): Text {
    match Active(f)
    case Some(p) => p.id
    case None => DefaultProfileId()
  }

  function List(f: StoreFile): (l: seq<ProfileSummary>)
    ensures |l| == |SortedKeys(f.profiles.Keys)|
  {
    var ks := SortedKeys(f.profiles.Keys);
    seq(|ks|, i requires 0 <= i < |ks| =>
      var p := f.profiles[ks[i]]; ProfileSummary(p.id, p.name, p.id == ActiveId(f)))
  }

  /** In every kept state neither fallback is taken. */
  lemma FallbacksAreDead(f: StoreFile)
    requires StoreOk(f)
    ensures Active(f) == Some(f.profiles[f.active])
    ensures ActiveId(f) == f.active
  {}

  predicate Names(f: StoreFile, p: ProfileSummary) {
    p.id in f.profiles && p.name == f.profiles[p.id].name
  }

  /** `list` names every stored profile once... */
  lemma ListNamesAll(f: StoreFile)
    requires StoreOk(f)
    ensures |List(f)| == |f.profiles|
    ensures forall i, j :: 0 <= i < j < |List(f)| ==> List(f)[i].id != List(f)[j].id
    ensures forall i :: 0 <= i < |List(f)| ==> Names(f, List(f)[i])
  {
    SortedCount(f.profiles.Keys);
    assert |f.profiles| == |f.profiles.Keys|;
    var l := List(f);
    forall i | 0 <= i < |l| ensures l[i].id == SortedKeys(f.profiles.Keys)[i] && Names(f, l[i]) {
      ListAt(f, i);
    }
  }

  /** ...and marks exactly one of them active, the one `active` names. */
  lemma ListMarksOne(f: StoreFile) returns (i: nat)
    requires StoreOk(f)
    ensures i < |List(f)| && List(f)[i].id == f.active
    ensures forall j :: 0 <= j < |List(f)| ==> (List(f)[j].active <==> j == i)
  {
    var ks := SortedKeys(f.profiles.Keys);
    assert f.active in ks;
    i :| 0 <= i < |ks| && ks[i] == f.active;
    ListAt(f, i);
    forall j | 0 <= j < |ks| ensures List(f)[j].active <==> j == i {
      ListAt(f, j);
      assert j != i ==> ks[j] != ks[i];
    }
  }

  lemma ListAt(f: StoreFile, i: nat)
    requires StoreOk(f) && i < |List(f)|
    ensures var k := SortedKeys(f.profiles.Keys)[i];
            k in f.profiles && List(f)[i] == ProfileSummary(k, f.profiles[k].name, k == f.active)
  {
    var ks := SortedKeys(f.profiles.Keys);
    assert ks[i] in ks;
    FallbacksAreDead(f);
  }

  lemma {:induction false} SortedCount(keys: set<Text>)
    ensures |SortedKeys(keys)| == |keys|
    decreases keys
  {
    if keys != {} {
      SortedCount(keys - {FirstKey(keys)});
    }
  }

  // Changing.

  /** The three operations a store can be asked for. */
  datatype StoreCall =
    | Set(profile: Profile, role: Role)
    | Delete(id: Text)
    | Activate(target: Text)

  /** Why an operation is refused before it touches memory; `None` when it goes ahead. */
  ghost function Refusal(f: StoreFile, c: StoreCall): Option<ErrorCode> {
    match c
    case Set(profile, role) => if ProfileOk(profile, role) then None else Some(BadRequest)
    case Delete(id) =>
      if id !in f.profiles then Some(NotFound)
      else if |f.profiles| == 1 then Some(BadRequest)
      else None
    case Activate(id) => if id in f.profiles then None else Some(NotFound)
  }

  /** What memory becomes when the operation goes ahead. */
  ghost function Changed(f: StoreFile, c: StoreCall): StoreFile
    requires Refusal(f, c).None?
  {
    match c
    case Set(profile, role) => f.(profiles := f.profiles[profile.id := profile])
    case Delete(id) =>
      var rest := f.profiles - {id};
      StoreFile(rest,
                if f.active != id then f.active
                else if rest.Keys == {} then DefaultProfileId()
                else FirstKey(rest.Keys))
    case Activate(id) => f.(active := id)
  }

  /** Memory changes before `persist` can fail, so it changes whatever the outcome. */
  ghost function After(f: StoreFile, c: StoreCall): StoreFile {
    if Refusal(f, c).None? then Changed(f, c) else f
  }

  ghost function ResultOf(f: StoreFile, c: StoreCall, o: Outcome): Result<(), Error> {
    match Refusal(f, c)
    case Some(code) => Err(Wire(code))
    case None => if o == Persisted then Ok(()) else Err(Fault)
  }

  lemma RemovingLeavesSome(m: map<Text, Profile>, id: Text)
    requires id in m && |m| != 1
    ensures (m - {id}).Keys != {}
  {
    assert m.Keys == (m - {id}).Keys + {id};
    assert |m| == |m.Keys| && |m.Keys - {id}| == |m.Keys| - 1;
    assert m.Keys == (m.Keys - {id}) + {id};
  }

  /** Every operation, by either role and however its write ends, keeps the promise. */
  lemma StoreStepKeepsOk(f: StoreFile, c: StoreCall)
    requires StoreOk(f)
    ensures StoreOk(After(f, c))
  {
    if Refusal(f, c).None? {
      match c {
        case Set(profile, role) =>
          AdminPermitsMore(profile, role);
          assert profile.id in Changed(f, c).profiles;
        case Delete(id) =>
          RemovingLeavesSome(f.profiles, id);
        case Activate(id) =>
      }
    }
  }

  /** An accepted set stores exactly that profile under its own id, new or not, and changes nothing else. */
  lemma SetStores(f: StoreFile, profile: Profile, role: Role)
    ensures var g := After(f, Set(profile, role));
            if ProfileOk(profile, role) then
              && g.profiles.Keys == f.profiles.Keys + {profile.id}
              && g.profiles[profile.id] == profile
              && (forall k :: k in f.profiles && k != profile.id ==> g.profiles[k] == f.profiles[k])
              && g.active == f.active
            else g == f
  {}

  /** An accepted activation moves `active` to that profile and changes nothing else. */
  lemma ActivateMoves(f: StoreFile, id: Text)
    ensures var g := After(f, Activate(id));
            g.profiles == f.profiles && g.active == if id in f.profiles then id else f.active
  {}

  lemma OnlyOne(m: map<Text, Profile>, id: Text)
    requires id in m
    ensures |m| == 1 <==> m.Keys == {id}
  {
    assert |m| == |m.Keys| && |m.Keys - {id}| == |m.Keys| - 1;
    assert m.Keys == (m.Keys - {id}) + {id};
  }

  /** When each operation is refused, and with what. */
  lemma StoreAnswers(f: StoreFile, profile: Profile, role: Role, id: Text, o: Outcome)
    ensures var saved := if o == Persisted then Ok(()) else Err(Fault);
            && ResultOf(f, Set(profile, role), o) == (if ProfileOk(profile, role) then saved else Err(Wire(BadRequest)))
            && ResultOf(f, Activate(id), o) == (if id in f.profiles then saved else Err(Wire(NotFound)))
            && ResultOf(f, Delete(id), o) == (if id !in f.profiles then Err(Wire(NotFound))
                                              else if f.profiles.Keys == {id} then Err(Wire(BadRequest))
                                              else saved)
  {
    if id in f.profiles { OnlyOne(f.profiles, id); }
  }

  /** A delete removes exactly one profile and, when it was active, moves `active` to the first of the rest. */
  lemma DeleteMovesActive(f: StoreFile, id: Text)
    requires StoreOk(f) && id in f.profiles && f.profiles.Keys != {id}
    ensures var g := After(f, Delete(id));
            && id !in g.profiles
            && (forall k :: k in f.profiles && k != id ==> k in g.profiles && g.profiles[k] == f.profiles[k])
            && (f.active != id ==> g.active == f.active)
            && (f.active == id ==> IsFirst(g.active, f.profiles.Keys - {id}))
  {
    OnlyOne(f.profiles, id);
    RemovingLeavesSome(f.profiles, id);
    assert (f.profiles - {id}).Keys == f.profiles.Keys - {id};
  }

  // Runs.

  ghost function StoreMachine(): Machine<StoreFile, StoreCall> {
    Machine((f: StoreFile, c: StoreCall) => Refusal(f, c).None?, (f: StoreFile, c: StoreCall) => After(f, c))
  }

  lemma StoreMachineKeeps()
    ensures StoreMachine().Keeps((f: StoreFile) => StoreOk(f))
  {
    forall f, c | StoreOk(f) ensures StoreOk(After(f, c)) {
      StoreStepKeepsOk(f, c);
    }
  }

  /**
   * From a store that loaded well, whatever calls are made, however their writes end and wherever
   * the process stops: the store that loads next is the one memory held right after the last call
   * answered Ok (or the one being saved when the process stopped), every promise intact.
   */
  lemma CrashedStoreReloads(codec: Codec<StoreFile>, d: Image, f: StoreFile, calls: seq<Timed<StoreCall>>, seen: Image)
    returns (k: nat)
    requires codec.RoundTrips() && StoreOk(f) && ReadJsonOr(codec, d, DefaultFile()) == Ok(f)
    requires Visible(codec, d, SavesOf(StoreMachine(), f, calls), seen)
    ensures Survives(StoreMachine(), f, calls, seen == AfterSaves(codec, d, SavesOf(StoreMachine(), f, calls)), k)
    ensures StoreOk(RunOf(StoreMachine(), f, calls[..k]))
    ensures ReadJsonOr(codec, seen, DefaultFile()) == Ok(RunOf(StoreMachine(), f, calls[..k]))
  {
    StoreMachineKeeps();
    var inv := (f: StoreFile) => StoreOk(f);
    k := CrashedRunReloads(StoreMachine(), inv, codec, d, f, calls, seen, DefaultFile());
  }

  lemma {:induction false} StoreRunKeepsOk(f: StoreFile, calls: seq<Timed<StoreCall>>)
    requires StoreOk(f)
    ensures StoreOk(RunOf(StoreMachine(), f, calls))
  {
    StoreMachineKeeps();
    var inv := (f: StoreFile) => StoreOk(f);
    RunKeeps(StoreMachine(), inv, f, calls);
  }

  /** Profiles, persisted as JSON. */
  class Store {
    var profiles: map<Text, Profile>
    var active: Text
    const disk: Disk
    const codec: Codec<StoreFile>

    constructor (disk: Disk, codec: Codec<StoreFile>, file: StoreFile)
      ensures this.disk == disk && this.codec == codec && File() == file
    {
      this.disk, this.codec := disk, codec;
      profiles, active := file.profiles, file.active;
    }

    function File(): StoreFile
      reads this
    {
      StoreFile(profiles, active)
    }

    /** Loads the store, writing the default profile on first run; `readable` is false when `fs::read` fails. */
    static method Load(disk: Disk, codec: Codec<StoreFile>, readable: bool, w: Write) returns (r: Result<Store, Error>)
      modifies disk
      ensures !readable ==> r == Err(Fault) && disk.Current() == old(disk.Current()) && disk.seen == old(disk.seen)
      ensures readable && old(disk.installed).Some? ==>
                disk.Current() == old(disk.Current()) && (r.Ok? <==> codec.de(old(disk.installed).value).Some?)
      ensures readable && old(disk.installed).None? ==>
                disk.Current() == Settled(old(disk.Current()), codec.ser(DefaultFile()), w)
                && (r.Ok? <==> w.outcome == Persisted)
      ensures r.Ok? ==>
                fresh(r.value) && r.value.disk == disk && r.value.codec == codec
                && ReadJsonOr(codec, old(disk.Current()), DefaultFile()) == Ok(r.value.File())
    {
      var existed := disk.installed.Some?;
      if !readable {
        return Err(Fault);
      }
      var read := ReadJsonOr(codec, disk.Current(), DefaultFile());
      if read.Err? {
        return Err(read.error);
      }
      var store := new Store(disk, codec, read.value);
      if !existed {
        var ok := store.Persist(w);
        if !ok {
          return Err(Fault);
        }
      }
      return Ok(store);
    }

    method Persist(w: Write) returns (ok: bool)
      modifies disk
      ensures ok <==> w.outcome == Persisted
      ensures disk.seen == old(disk.seen) + Instants(old(disk.Current()), codec.ser(File()), w)
      ensures disk.Current() == Settled(old(disk.Current()), codec.ser(File()), w)
    {
      ok := disk.WriteJson(codec.ser(File()), w);
    }

    /** The disk went from `d`, having shown `shown`, through exactly what this call writes, if one was made. */
    ghost predicate Recorded(d: Image, shown: seq<Image>, before: StoreFile, w: Write, call: Option<StoreCall>)
      reads disk
    {
      match call
      case None => disk.Current() == d && disk.seen == shown
      case Some(c) =>
        disk.Current() == DiskAfter(d, codec, before, c, w) && disk.seen == shown + DiskShows(d, codec, before, c, w)
    }

    method SetProfile(profile: Profile, role: Role, w: Write) returns (r: Result<(), Error>)
      modifies this, disk
      ensures File() == After(old(File()), Set(profile, role))
      ensures if ProfileOk(profile, role)
              then profiles == old(profiles)[profile.id := profile] && active == old(active)
              else r == Err(Wire(BadRequest)) && profiles == old(profiles) && active == old(active)
      ensures r == ResultOf(old(File()), Set(profile, role), w.outcome)
      ensures disk.Current() == DiskAfter(old(disk.Current()), codec, old(File()), Set(profile, role), w)
      ensures disk.seen == old(disk.seen) + DiskShows(old(disk.Current()), codec, old(File()), Set(profile, role), w)
      ensures r.Ok? ==> disk.installed == Some(codec.ser(File()))
    {
      var checked := Validate(profile, role);
      if checked.Err? {
        return Err(Wire(BadRequest));
      }
      profiles := profiles[profile.id := profile];
      var ok := Persist(w);
      return if ok then Ok(()) else Err(Fault);
    }

    method DeleteProfile(id: Text, w: Write) returns (r: Result<(), Error>)
      modifies this, disk
      ensures File() == After(old(File()), Delete(id))
      ensures r == ResultOf(old(File()), Delete(id), w.outcome)
      ensures disk.Current() == DiskAfter(old(disk.Current()), codec, old(File()), Delete(id), w)
      ensures disk.seen == old(disk.seen) + DiskShows(old(disk.Current()), codec, old(File()), Delete(id), w)
      ensures r.Ok? ==> disk.installed == Some(codec.ser(File()))
    {
      if id !in profiles {
        return Err(Wire(NotFound));
      }
      if |profiles| == 1 {
        return Err(Wire(BadRequest));
      }
      profiles := profiles - {id};
      if active == id {
        active := if profiles.Keys == {} then DefaultProfileId() else FirstKey(profiles.Keys);
      }
      var ok := Persist(w);
      return if ok then Ok(()) else Err(Fault);
    }

    method ActivateProfile(id: Text, w: Write) returns (r: Result<(), Error>)
      modifies this, disk
      ensures File() == After(old(File()), Activate(id))
      ensures profiles == old(profiles) && active == if id in profiles then id else old(active)
      ensures r == ResultOf(old(File()), Activate(id), w.outcome)
      ensures disk.Current() == DiskAfter(old(disk.Current()), codec, old(File()), Activate(id), w)
      ensures disk.seen == old(disk.seen) + DiskShows(old(disk.Current()), codec, old(File()), Activate(id), w)
      ensures r.Ok? ==> disk.installed == Some(codec.ser(File()))
    {
      if id !in profiles {
        return Err(Wire(NotFound));
      }
      active := id;
      var ok := Persist(w);
      return if ok then Ok(()) else Err(Fault);
    }
  }

  /** A refused operation never touches the disk. */
  ghost function DiskAfter(d: Image, codec: Codec<StoreFile>, f: StoreFile, c: StoreCall, w: Write): Image {
    if Refusal(f, c).None? then Settled(d, codec.ser(After(f, c)), w) else d
  }

  /** What an observer can see on the disk meanwhile. */
  ghost function DiskShows(d: Image, codec: Codec<StoreFile>, f: StoreFile, c: StoreCall, w: Write): seq<Image> {
    if Refusal(f, c).None? then Instants(d, codec.ser(After(f, c)), w) else []
  }

  // The default layout.

  function DefaultProfileId(): Text { Ascii("p_default") }

  function DefaultNames(): seq<string> {
    [ "b_copy", "b_paste", "b_cut", "b_undo", "b_redo",
      "b_all", "b_save", "b_find", "b_switch", "b_desktop",
      "b_shot", "b_lock", "b_tasks", "b_close", "b_escape" ]
  }

  function DefaultButtons(): (bs: seq<Button>) {
    seq(15, i requires 0 <= i < 15 =>
      Button(Ascii(DefaultNames()[i]), Position(i % 5, i / 5), Some(Known(InputKeyCombo)), None))
  }

  function DefaultProfile(): Profile {
    Profile(DefaultProfileId(), Ascii("Default"), Grid(5, 3),
            [Page(Ascii("pg_1"), Ascii("Main"), DefaultButtons())])
  }

  function DefaultFile(): StoreFile {
    StoreFile(map[DefaultProfileId() := DefaultProfile()], DefaultProfileId())
  }

  /** The third and fourth letters alone tell the fifteen default buttons apart. */
  function Tag(t: Text): int
    requires |t| >= 4
  {
    t[2] as int * 256 + t[3] as int
  }

  lemma DefaultTags(i: nat)
    requires i < 15
    ensures |Ascii(DefaultNames()[i])| >= 4
    ensures Tag(Ascii(DefaultNames()[i])) ==
            [25455, 28769, 25461, 30062, 29285, 24940, 29537, 26217, 29559, 25701,
             29544, 27759, 29793, 25452, 25971][i]
  {
    var s := DefaultNames()[i];
    assert s[2] < 128 as char && s[3] < 128 as char;
  }

  lemma DefaultIdsDiffer(j: nat, l: nat)
    requires j < 15 && l < 15 && j != l
    ensures Ascii(DefaultNames()[j]) != Ascii(DefaultNames()[l])
  {
    DefaultTags(j);
    DefaultTags(l);
  }

  lemma DefaultPlacesDiffer(j: nat, l: nat)
    requires j < 15 && l < 15 && j != l
    ensures Position(j % 5, j / 5) != Position(l % 5, l / 5)
  {
    assert j == (j / 5) * 5 + j % 5 && l == (l / 5) * 5 + l % 5;
  }

  lemma DefaultButtonsDiffer(bs: seq<Button>, j: nat, l: nat)
    requires bs == DefaultButtons() && j < 15 && l < 15 && j != l
    ensures bs[j].id != bs[l].id && bs[j].pos != bs[l].pos
  {
    DefaultIdsDiffer(j, l);
    DefaultPlacesDiffer(j, l);
  }

  /** On a single page the rules come down to its buttons. */
  lemma OnePageIsOk(p: Profile, bs: seq<Button>, role: Role)
    requires |p.pages| == 1 && p.pages[0].buttons == bs && p.grid.cols >= 1 && p.grid.rows >= 1
    requires forall j, l :: 0 <= j < |bs| && 0 <= l < |bs| && j != l ==> bs[j].id != bs[l].id && bs[j].pos != bs[l].pos
    requires forall j :: 0 <= j < |bs| ==> InGrid(p, bs[j].pos)
    requires forall j :: 0 <= j < |bs| ==>
               ActionPermitted(bs[j].onTap, role) && ActionPermitted(bs[j].onLongPress, role)
    ensures ProfileOk(p, role)
  {
    assert forall i, j :: InProfile(p, i, j) ==> i == 0 && At(p, i, j) == bs[j];
  }

  lemma DefaultProfileIsOk()
    ensures ProfileOk(DefaultProfile(), Admin)
  {
    var bs := DefaultButtons();
    forall j, l | 0 <= j < |bs| && 0 <= l < |bs| && j != l
      ensures bs[j].id != bs[l].id && bs[j].pos != bs[l].pos
    {
      DefaultButtonsDiffer(bs, j, l);
    }
    OnePageIsOk(DefaultProfile(), bs, Admin);
  }

  /** The default page has a key combo in every cell of its five by three grid, and nothing else. */
  lemma DefaultFillsGrid(col: nat, row: nat)
    requires col < 5 && row < 3
    ensures var p := DefaultFile().profiles[Ascii("p_default")];
            && DefaultFile().active == Ascii("p_default") && DefaultFile().profiles.Keys == {Ascii("p_default")}
            && p.id == Ascii("p_default") && p.grid == Grid(5, 3)
            && |p.pages| == 1 && |p.pages[0].buttons| == 15
            && var b := p.pages[0].buttons[5 * row + col];
               b.pos == Position(col, row) && b.onTap == Some(Known(InputKeyCombo)) && b.onLongPress == None
  {
    assert (5 * row + col) % 5 == col && (5 * row + col) / 5 == row;
  }

  /** A fresh install starts from a layout its own validator accepts. */
  lemma DefaultIsOk()
    ensures ProfileOk(DefaultProfile(), Admin)
    ensures StoreOk(DefaultFile())
  {
    DefaultProfileIsOk();
    assert DefaultProfileId() in DefaultFile().profiles;
  }
}
