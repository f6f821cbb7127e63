/** Atomic writes, and what a crash can leave behind. */
module Persistence {
  import opened Basics

  /** How one `write_json` ends. */
  datatype Outcome = Persisted | SerialiseFailed | WriteFailed | RenameFailed

  /**
   * What the operating system does during one `write_json`: the outcome, and every content the
   * temporary file shows while `fs::write` is still filling it.
   */
  datatype Write = Write(outcome: Outcome, partials: seq<Option<seq<byte>>>)

  /** The file at its final path, and the temporary file beside it. */
  datatype Image = Image(installed: Option<seq<byte>>, tmp: Option<seq<byte>>)

  /** A serialiser and a parser. */
  datatype Codec<!T(!new)> = Codec(ser: T -> seq<byte>, de: seq<byte> -> Option<T>)
  {
    ghost predicate RoundTrips() {
      forall v :: de(ser(v)) == Some(v)
    }
  }

  /** What shows while the temporary file is being filled. */
  function Filling(d: Image, w: Write): (images: seq<Image>)
    ensures |images| == |w.partials| + 1
  {
    [d] + seq(|w.partials|, i requires 0 <= i < |w.partials| => d.(tmp := w.partials[i]))
  }

  /** Every disk image an observer can see during one `write_json`, in order. */
  function Instants(d: Image, bytes: seq<byte>, w: Write): (images: seq<Image>)
    ensures images != [] && images[0] == d
  {
    match w.outcome
    case SerialiseFailed => [d]
    case WriteFailed => Filling(d, w)
    case RenameFailed => Filling(d, w) + [d.(tmp := Some(bytes))]
    case Persisted => Filling(d, w) + [d.(tmp := Some(bytes)), Image(Some(bytes), None)]
  }

  /** What one `write_json` leaves behind. */
  function Settled(d: Image, bytes: seq<byte>, w: Write): Image {
    match w.outcome
    case SerialiseFailed => d
    case WriteFailed => if w.partials == [] then d else d.(tmp := w.partials[|w.partials| - 1])
    case RenameFailed => d.(tmp := Some(bytes))
    case Persisted => Image(Some(bytes), None)
  }

  /** A rename is the only instant at which the installed file changes, and it is the last one. */
  lemma InstalledDuringWrite(d: Image, bytes: seq<byte>, w: Write, i: nat)
    requires i < |Instants(d, bytes, w)|
    ensures var here := Instants(d, bytes, w)[i].installed;
            if w.outcome == Persisted && i == |Instants(d, bytes, w)| - 1 then here == Some(bytes)
            else here == d.installed
    ensures i == |Instants(d, bytes, w)| - 1 ==> Instants(d, bytes, w)[i] == Settled(d, bytes, w)
  {}

  /**
   * The file system as seen by one persisted object. `seen` is everything an observer could have
   * found there, in order: each primitive that touches a file adds the image it leaves.
   */
  class Disk {
    var installed: Option<seq<byte>>
    var tmp: Option<seq<byte>>
    ghost var seen: seq<Image>

    constructor (image: Image)
      ensures Current() == image && seen == []
    {
      installed, tmp := image.installed, image.tmp;
      seen := [];
    }

    function Current(): Image
      reads this`installed, this`tmp
    {
      Image(installed, tmp)
    }

    /** One visible step of `fs::write` on the temporary file. */
    method FillTmp(content: Option<seq<byte>>)
      modifies this`tmp, this`seen
      ensures Current() == old(Current()).(tmp := content)
      ensures seen == old(seen) + [Current()]
    {
      tmp := content;
      seen := seen + [Current()];
    }

    /** `fs::rename` of the temporary file over the final path: one atomic step. */
    method RenameTmp()
      requires tmp.Some?
      modifies this
      ensures Current() == Image(old(tmp), None)
      ensures seen == old(seen) + [Current()]
    {
      installed, tmp := tmp, None;
      seen := seen + [Current()];
    }

    /** `write_json`: serialise, write the temporary file, rename it over the final path. */
    method WriteJson(bytes: seq<byte>, w: Write) returns (ok: bool)
      modifies this
      ensures ok <==> w.outcome == Persisted
      ensures seen == old(seen) + Instants(old(Current()), bytes, w)
      ensures Current() == Settled(old(Current()), bytes, w)
    {
      ghost var before := Current();
      seen := seen + [before];
      if w.outcome == SerialiseFailed {
        return false;
      }
      for i := 0 to |w.partials|
        invariant Current() == if i == 0 then before else before.(tmp := w.partials[i - 1])
        invariant seen == old(seen) + Filling(before, w)[..i + 1]
      {
        FillTmp(w.partials[i]);
      }
      if w.outcome == WriteFailed {
        return false;
      }
      FillTmp(Some(bytes));
      if w.outcome == RenameFailed {
        return false;
      }
      RenameTmp();
      return true;
    }
  }

  /** `read_json_or`: absent means the default, malformed is an error and never the default. */
  function ReadJsonOr<T(!new)>(codec: Codec<T>, image: Image, default: T): Result<T, Error> {
    match image.installed
    case None => Ok(default)
    case Some(bytes) =>
      match codec.de(bytes)
      case Some(v) => Ok(v)
      case None => Err(Fault)
  }

  /** One operation that reached `persist`: memory had already become `next`. */
  datatype Save<T> = Save(next: T, w: Write)

  function AfterSaves<T(!new)>(codec: Codec<T>, d: Image, saves: seq<Save<T>>): Image {
    if saves == [] then d
    else
      var last := saves[|saves| - 1];
      Settled(AfterSaves(codec, d, saves[..|saves| - 1]), codec.ser(last.next), last.w)
  }

  /** Everything an observer can see while the last of `saves` is being carried out. */
  function DuringLast<T(!new)>(codec: Codec<T>, d: Image, saves: seq<Save<T>>): (images: seq<Image>)
    requires saves != []
    ensures images != []
  {
    var last := saves[|saves| - 1];
    Instants(AfterSaves(codec, d, saves[..|saves| - 1]), codec.ser(last.next), last.w)
  }

  /** The index one past the last save that installed its state; 0 when none did. */
  function LastInstalled<T>(saves: seq<Save<T>>): (n: nat)
    ensures n <= |saves|
    ensures n > 0 ==> saves[n - 1].w.outcome == Persisted
    ensures forall k :: n <= k < |saves| ==> saves[k].w.outcome != Persisted
  {
    if saves == [] then 0
    else if saves[|saves| - 1].w.outcome == Persisted then |saves|
    else LastInstalled(saves[..|saves| - 1])
  }

  lemma {:induction false} InstalledAfter<T(!new)>(codec: Codec<T>, d: Image, saves: seq<Save<T>>)
    ensures var n := LastInstalled(saves);
            AfterSaves(codec, d, saves).installed
              == if n == 0 then d.installed else Some(codec.ser(saves[n - 1].next))
  {
    if saves != [] {
      var front := saves[..|saves| - 1];
      var last := saves[|saves| - 1];
      InstalledAfter(codec, d, front);
    }
  }

  /**
   * One past the last save whose rename has happened when the process stops during the last write,
   * at its final instant or before it.
   */
  function LastRenamed<T>(saves: seq<Save<T>>, final: bool): (n: nat)
    requires saves != []
    ensures n <= |saves|
    ensures n > 0 ==> saves[n - 1].w.outcome == Persisted
    ensures forall k :: n <= k < |saves| - 1 ==> saves[k].w.outcome != Persisted
  {
    if final && saves[|saves| - 1].w.outcome == Persisted then |saves|
    else LastInstalled(saves[..|saves| - 1])
  }

  /**
   * Crash safety. Whatever the sequence of operations, however each write ends, and at whichever
   * instant of whichever write the process stops: the installed file is the one found at start-up,
   * or exactly the state memory held right after the last save that got as far as its rename. A
   * reload therefore never fails to parse and never sees a half-written or failed state.
   */
  lemma CrashSafe<T(!new)>(codec: Codec<T>, d: Image, saves: seq<Save<T>>, i: nat, default: T)
    requires codec.RoundTrips()
    requires saves != [] && i < |DuringLast(codec, d, saves)|
    ensures var seen := DuringLast(codec, d, saves)[i];
            var n := LastRenamed(saves, i == |DuringLast(codec, d, saves)| - 1);
            if n == 0 then seen.installed == d.installed
            else seen.installed == Some(codec.ser(saves[n - 1].next))
                 && ReadJsonOr(codec, seen, default) == Ok(saves[n - 1].next)
  {
    var front := saves[..|saves| - 1];
    var last := saves[|saves| - 1];
    InstalledAfter(codec, d, front);
    InstalledDuringWrite(AfterSaves(codec, d, front), codec.ser(last.next), last.w, i);
    var n := LastRenamed(saves, i == |DuringLast(codec, d, saves)| - 1);
    if n > 0 {
      assert codec.de(codec.ser(saves[n - 1].next)) == Some(saves[n - 1].next);
    }
  }

  // Objects that change memory and then persist it.

  /** `writes(s, c)`: the call reaches `persist`; `next(s, c)`: what memory becomes. */
  datatype Machine<!S(!new), !C(!new)> = Machine(writes: (S, C) -> bool, next: (S, C) -> S)
  {
    /** Calls that do not reach `persist` leave memory alone; calls that do keep `inv`. */
    ghost predicate Keeps(inv: S -> bool) {
      && (forall s, c :: !writes(s, c) ==> next(s, c) == s)
      && (forall s, c :: inv(s) ==> inv(next(s, c)))
    }
  }

  datatype Timed<C> = Timed(call: C, w: Write)

  function RunOf<S(!new), C(!new)>(m: Machine<S, C>, s: S, calls: seq<Timed<C>>): S {
    if calls == [] then s
    else m.next(RunOf(m, s, calls[..|calls| - 1]), calls[|calls| - 1].call)
  }

  function SavesOf<S(!new), C(!new)>(m: Machine<S, C>, s: S, calls: seq<Timed<C>>): seq<Save<S>> {
    if calls == [] then []
    else
      var front := calls[..|calls| - 1];
      var last := calls[|calls| - 1];
      if m.writes(RunOf(m, s, front), last.call)
      then SavesOf(m, s, front) + [Save(RunOf(m, s, calls), last.w)]
      else SavesOf(m, s, front)
  }

  lemma {:induction false} RunKeeps<S(!new), C(!new)>(m: Machine<S, C>, inv: S -> bool, s: S, calls: seq<Timed<C>>)
    requires m.Keeps(inv) && inv(s)
    ensures inv(RunOf(m, s, calls))
  {
    if calls != [] {
      RunKeeps(m, inv, s, calls[..|calls| - 1]);
    }
  }

  /** Call `j` of the run reached its write. */
  ghost predicate Writes<S(!new), C(!new)>(m: Machine<S, C>, s: S, calls: seq<Timed<C>>, j: nat)
    requires j < |calls|
  {
    m.writes(RunOf(m, s, calls[..j]), calls[j].call)
  }

  /** Call `j` of the run reached its write, and the write ended well: the call was answered Ok. */
  ghost predicate Persists<S(!new), C(!new)>(m: Machine<S, C>, s: S, calls: seq<Timed<C>>, j: nat)
    requires j < |calls|
  {
    Writes(m, s, calls, j) && calls[j].w.outcome == Persisted
  }

  /** How many calls had reached their write before call `j`: the place of its own save. */
  ghost function SavesBefore<S(!new), C(!new)>(m: Machine<S, C>, s: S, calls: seq<Timed<C>>, j: nat): nat
    requires j <= |calls|
  {
    |SavesOf(m, s, calls[..j])|
  }

  lemma {:induction false} SavesBeforeGrow<S(!new), C(!new)>(
      m: Machine<S, C>, s: S, calls: seq<Timed<C>>, k: nat, j: nat)
    requires k <= j <= |calls|
    ensures SavesBefore(m, s, calls, k) <= SavesBefore(m, s, calls, j)
    ensures (exists i :: k <= i < j && Writes(m, s, calls, i))
            ==> SavesBefore(m, s, calls, k) < SavesBefore(m, s, calls, j)
  {
    if k < j {
      SavesBeforeGrow(m, s, calls, k, j - 1);
      assert calls[..j][..j - 1] == calls[..j - 1];
      assert Writes(m, s, calls, j - 1) <==> SavesBefore(m, s, calls, j - 1) < SavesBefore(m, s, calls, j);
    }
  }

  /** A call that wrote left its save at its own place, ending as its own write did. */
  lemma {:induction false} SaveOfCall<S(!new), C(!new)>(m: Machine<S, C>, s: S, calls: seq<Timed<C>>, j: nat)
    requires j < |calls| && Writes(m, s, calls, j)
    ensures SavesBefore(m, s, calls, j) < |SavesOf(m, s, calls)|
    ensures SavesOf(m, s, calls)[SavesBefore(m, s, calls, j)].w == calls[j].w
    decreases |calls|
  {
    var front := calls[..|calls| - 1];
    if j < |front| {
      assert front[..j] == calls[..j];
      assert Writes(m, s, front, j);
      SaveOfCall(m, s, front, j);
    }
  }

  /** Every state that was ever saved is the one memory held right after the call that saved it. */
  lemma {:induction false} SavedStatesArePassed<S(!new), C(!new)>(m: Machine<S, C>, s: S, calls: seq<Timed<C>>, n: nat)
    returns (k: nat)
    requires n < |SavesOf(m, s, calls)|
    ensures 0 < k <= |calls| && SavesOf(m, s, calls)[n].next == RunOf(m, s, calls[..k])
    ensures Writes(m, s, calls, k - 1) && SavesOf(m, s, calls)[n].w == calls[k - 1].w
    ensures SavesBefore(m, s, calls, k) == n + 1
  {
    var front := calls[..|calls| - 1];
    if n < |SavesOf(m, s, front)| {
      k := SavedStatesArePassed(m, s, front, n);
      assert calls[..k] == front[..k] && calls[..k - 1] == front[..k - 1];
    } else {
      k := |calls|;
      assert calls[..k] == calls;
    }
  }

  /**
   * What a start-up finds after a crash: the file as first found, or the last of the saved states
   * whose rename had happened; with the writes all over, the last that ended well.
   */
  lemma CrashFinds<T(!new)>(codec: Codec<T>, d: Image, saves: seq<Save<T>>, seen: Image, default: T) returns (n: nat)
    requires codec.RoundTrips() && saves != [] && seen in DuringLast(codec, d, saves)
    ensures n <= |saves|
    ensures if n == 0 then seen.installed == d.installed
            else ReadJsonOr(codec, seen, default) == Ok(saves[n - 1].next) && saves[n - 1].w.outcome == Persisted
    ensures forall i :: n <= i < |saves| && saves[i].w.outcome == Persisted
                        ==> i == |saves| - 1 && seen != AfterSaves(codec, d, saves)
  {
    var images := DuringLast(codec, d, saves);
    var front, last := saves[..|saves| - 1], saves[|saves| - 1];
    InstalledDuringWrite(AfterSaves(codec, d, front), codec.ser(last.next), last.w, |images| - 1);
    var i := |images| - 1;
    if seen != AfterSaves(codec, d, saves) {
      i :| 0 <= i < |images| && images[i] == seen;
    }
    CrashSafe(codec, d, saves, i, default);
    n := LastRenamed(saves, i == |images| - 1);
  }

  /** An image an observer can find while the last of these saves is carried out; `d` when there is none. */
  ghost predicate Visible<T(!new)>(codec: Codec<T>, d: Image, saves: seq<Save<T>>, seen: Image) {
    if saves == [] then seen == d else seen in DuringLast(codec, d, saves)
  }

  /**
   * What of a run outlives a crash: exactly the calls up to the last one whose write had ended well.
   * The only such call that can be missing is the one being written when the process stopped.
   */
  ghost predicate Survives<S(!new), C(!new)>(m: Machine<S, C>, s: S, calls: seq<Timed<C>>, settled: bool, k: nat)
  {
    && k <= |calls|
    && (k > 0 ==> Persists(m, s, calls, k - 1))
    && (forall j :: k <= j < |calls| && Persists(m, s, calls, j) ==>
          !settled && forall i :: j < i < |calls| ==> !Writes(m, s, calls, i))
  }

  lemma {:induction false} SurvivesWhere<S(!new), C(!new)>(
      m: Machine<S, C>, s: S, calls: seq<Timed<C>>, settled: bool, n: nat, k: nat)
    requires k <= |calls| && SavesBefore(m, s, calls, k) == n && (k > 0 ==> Persists(m, s, calls, k - 1))
    requires var saves := SavesOf(m, s, calls);
             forall i :: n <= i < |saves| && saves[i].w.outcome == Persisted ==> i == |saves| - 1 && !settled
    ensures Survives(m, s, calls, settled, k)
  {
    forall j | k <= j < |calls| && Persists(m, s, calls, j)
      ensures !settled && forall i :: j < i < |calls| ==> !Writes(m, s, calls, i)
    {
      SaveOfCall(m, s, calls, j);
      SavesBeforeGrow(m, s, calls, k, j);
      forall i | j < i < |calls| ensures !Writes(m, s, calls, i) {
        if Writes(m, s, calls, i) {
          SaveOfCall(m, s, calls, i);
          SavesBeforeGrow(m, s, calls, j, i);
        }
      }
    }
  }

  /**
   * Durability. Start from what the disk loads as, make any calls, stop the process at any instant
   * of any write, and start again. What loads is the state memory held right after the last call
   * whose write had ended well, with its invariant intact: no call answered Ok is ever lost.
   */
  lemma {:induction false} CrashedRunReloads<S(!new), C(!new)>(
      m: Machine<S, C>, inv: S -> bool, codec: Codec<S>, d: Image, s: S, calls: seq<Timed<C>>, seen: Image, default: S)
    returns (k: nat)
    requires codec.RoundTrips() && m.Keeps(inv) && inv(s) && ReadJsonOr(codec, d, default) == Ok(s)
    requires Visible(codec, d, SavesOf(m, s, calls), seen)
    ensures Survives(m, s, calls, seen == AfterSaves(codec, d, SavesOf(m, s, calls)), k)
    ensures inv(RunOf(m, s, calls[..k]))
    ensures ReadJsonOr(codec, seen, default) == Ok(RunOf(m, s, calls[..k]))
  {
    var saves := SavesOf(m, s, calls);
    var n := 0;
    k := 0;
    if saves != [] {
      n := CrashFinds(codec, d, saves, seen, default);
      if n > 0 {
        k := SavedStatesArePassed(m, s, calls, n - 1);
      }
    }
    SurvivesWhere(m, s, calls, seen == AfterSaves(codec, d, saves), n, k);
    RunKeeps(m, inv, s, calls[..k]);
  }

  /** When the last call of a run is answered Ok, the disk holds exactly what memory holds. */
  lemma {:induction false} OkMeansSaved<S(!new), C(!new)>(
      m: Machine<S, C>, codec: Codec<S>, d: Image, s: S, calls: seq<Timed<C>>)
    requires calls != []
    requires m.writes(RunOf(m, s, calls[..|calls| - 1]), calls[|calls| - 1].call)
    requires calls[|calls| - 1].w.outcome == Persisted
    ensures AfterSaves(codec, d, SavesOf(m, s, calls)).installed == Some(codec.ser(RunOf(m, s, calls)))
  {
    var saves := SavesOf(m, s, calls);
    assert saves[|saves| - 1] == Save(RunOf(m, s, calls), calls[|calls| - 1].w);
  }
}
