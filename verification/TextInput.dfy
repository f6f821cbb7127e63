/** Typing text: UTF-16, chunks of bounded size, and three ways of delivering the same string. */
module TextInput {
  import opened Basics

  type Unit = x: int | 0 <= x < 0x1_0000

  const MAX_TEXT_LEN: nat := 4096
  const TEXT_CHUNK_UTF16: nat := 20

  // UTF-16, sections 2.1 and 2.2 of RFC 2781. A `char` is a Unicode scalar value.

  function Width(c: char): nat {
    if c as int < 0x1_0000 then 1 else 2
  }

  function UnitsOf(c: char): (us: seq<Unit>)
    ensures |us| == Width(c)
  {
    var n := c as int;
    if n < 0x1_0000 then [n]
    else [0xD800 + (n - 0x1_0000) / 0x400, 0xDC00 + (n - 0x1_0000) % 0x400]
  }

  function Utf16(s: string): seq<Unit> {
    if s == [] then [] else UnitsOf(s[0]) + Utf16(s[1..])
  }

  predicate IsHigh(u: Unit) { 0xD800 <= u <= 0xDBFF }
  predicate IsLow(u: Unit) { 0xDC00 <= u <= 0xDFFF }

  function Decode(us: seq<Unit>): Option<string> {
    if us == [] then Some([])
    else if !IsHigh(us[0]) && !IsLow(us[0]) then
      (match Decode(us[1..]) case None => None case Some(rest) => Some([us[0] as char] + rest))
    else if IsHigh(us[0]) && |us| >= 2 && IsLow(us[1]) then
      var n: int := 0x1_0000 + (us[0] as int - 0xD800) * 0x400 + (us[1] as int - 0xDC00);
      (match Decode(us[2..]) case None => None case Some(rest) => Some([n as char] + rest))
    else None
  }

  lemma {:induction false} DecodeOne(c: char, rest: seq<Unit>)
    ensures Decode(UnitsOf(c) + rest)
            == (match Decode(rest) case None => None case Some(s) => Some([c] + s))
  {
    var us := UnitsOf(c) + rest;
    assert us[Width(c)..] == rest;
    if c as int >= 0x1_0000 {
      var m := c as int - 0x1_0000;
      assert m == (m / 0x400) * 0x400 + m % 0x400;
    }
  }

  /** The units of a string decode back to that string. */
  lemma {:induction false} Utf16RoundTrips(s: string)
    ensures Decode(Utf16(s)) == Some(s)
  {
    if s != [] {
      Utf16RoundTrips(s[1..]);
      DecodeOne(s[0], Utf16(s[1..]));
      assert s == [s[0]] + s[1..];
    }
  }

  lemma {:induction false} Utf16Concat(a: string, b: string)
    ensures Utf16(a + b) == Utf16(a) + Utf16(b)
  {
    if a == [] {
      assert a + b == b;
    } else {
      assert (a + b)[1..] == a[1..] + b;
      Utf16Concat(a[1..], b);
    }
  }

  // Sizes.

  function Units(s: string): nat {
    |Utf16(s)|
  }

  lemma UnitsConcat(a: string, b: string)
    ensures Units(a + b) == Units(a) + Units(b)
  {
    Utf16Concat(a, b);
  }

  lemma UnitsOne(c: char)
    ensures Units([c]) == Width(c)
  {
    assert Utf16([c]) == UnitsOf(c) + Utf16([c][1..]);
  }

  // UTF-8, section 3 of RFC 3629.

  function Tail(n: nat): byte { (0x80 + n % 0x40) as byte }

  function BytesOf(c: char): (bs: seq<byte>)
    ensures 1 <= |bs| <= 4
  {
    var n := c as int;
    if n < 0x80 then [n as byte]
    else if n < 0x800 then [(0xC0 + n / 0x40) as byte, Tail(n)]
    else if n < 0x1_0000 then [(0xE0 + n / 0x1000) as byte, Tail(n / 0x40), Tail(n)]
    else [(0xF0 + n / 0x4_0000) as byte, Tail(n / 0x1000), Tail(n / 0x40), Tail(n)]
  }

  function Utf8(s: string): seq<byte> {
    if s == [] then [] else BytesOf(s[0]) + Utf8(s[1..])
  }

  predicate IsTail(b: byte) { 0x80 <= b < 0xC0 }

  /** The number a sequence of bytes starts with, and how many bytes it takes; overlong forms are refused. */
  function FirstNumber(bs: seq<byte>): Option<(nat, nat)> {
    if bs == [] then None
    else
      var b := bs[0] as int;
      if b < 0x80 then Some((b, 1))
      else if 0xC0 <= b < 0xE0 && |bs| >= 2 && IsTail(bs[1]) then
        var n := (b - 0xC0) * 0x40 + (bs[1] as int - 0x80);
        if n >= 0x80 then Some((n, 2)) else None
      else if 0xE0 <= b < 0xF0 && |bs| >= 3 && IsTail(bs[1]) && IsTail(bs[2]) then
        var n := (b - 0xE0) * 0x1000 + (bs[1] as int - 0x80) * 0x40 + (bs[2] as int - 0x80);
        if n >= 0x800 then Some((n, 3)) else None
      else if 0xF0 <= b < 0xF8 && |bs| >= 4 && IsTail(bs[1]) && IsTail(bs[2]) && IsTail(bs[3]) then
        var n := (b - 0xF0) * 0x4_0000 + (bs[1] as int - 0x80) * 0x1000 + (bs[2] as int - 0x80) * 0x40
                 + (bs[3] as int - 0x80);
        if n >= 0x1_0000 then Some((n, 4)) else None
      else None
  }

  lemma SplitSix(n: nat)
    ensures n == n / 0x40 * 0x40 + n % 0x40
    ensures n / 0x1000 == n / 0x40 / 0x40 && n / 0x4_0000 == n / 0x40 / 0x40 / 0x40
  {}

  /** Every character's bytes read back as that character, whatever follows, and take up exactly themselves. */
  lemma BytesReadBack(c: char, rest: seq<byte>)
    ensures FirstNumber(BytesOf(c) + rest) == Some((c as int, |BytesOf(c)|))
  {
    var n := c as int;
    SplitSix(n);
    SplitSix(n / 0x40);
    SplitSix(n / 0x40 / 0x40);
  }

  /** `str::len`: a Rust string is its UTF-8 bytes. */
  function Utf8Len(s: string): nat {
    |Utf8(s)|
  }

  /** A string never has more UTF-16 units than UTF-8 bytes. */
  lemma {:induction false} UnitsAtMostBytes(s: string)
    ensures Units(s) <= Utf8Len(s)
  {
    if s != [] { UnitsAtMostBytes(s[1..]); }
  }

  // Chunking.

  function Flatten(chunks: seq<string>): string {
    if chunks == [] then [] else chunks[0] + Flatten(chunks[1..])
  }

  lemma {:induction false} FlattenAppend(chunks: seq<string>, last: string)
    ensures Flatten(chunks + [last]) == Flatten(chunks) + last
  {
    if chunks == [] {
      assert chunks + [last] == [last];
      assert Flatten([last][1..]) == [];
    } else {
      assert (chunks + [last])[1..] == chunks[1..] + [last];
      FlattenAppend(chunks[1..], last);
    }
  }

  ghost predicate Within(chunks: seq<string>, limit: nat) {
    forall i :: 0 <= i < |chunks| ==> Units(chunks[i]) <= limit
  }

  /** A way of cutting `text` between characters into pieces of at most `limit` units. */
  ghost predicate Partition(chunks: seq<string>, text: string, limit: nat) {
    Flatten(chunks) == text && Within(chunks, limit)
  }

  ghost predicate Full(chunks: seq<string>, i: nat, limit: nat) {
    i + 1 < |chunks| && chunks[i + 1] != [] && Units(chunks[i]) + Width(chunks[i + 1][0]) > limit
  }

  /** No chunk could have taken in the first character of the next one. */
  ghost predicate Greedy(chunks: seq<string>, limit: nat) {
    && (forall i :: 0 <= i < |chunks| ==> chunks[i] != [])
    && forall i :: 0 <= i < |chunks| - 1 ==> Full(chunks, i, limit)
  }

  /** What is left of a partition when the first `n` characters of the text are dropped. */
  function DropChars(chunks: seq<string>, n: nat): (rest: seq<string>)
    requires n <= |Flatten(chunks)|
    ensures |rest| == |chunks|
    ensures Flatten(rest) == Flatten(chunks)[n..]
    decreases |chunks|
  {
    if chunks == [] then []
    else if n <= |chunks[0]| then
      assert (chunks[0][n..] + Flatten(chunks[1..])) == (chunks[0] + Flatten(chunks[1..]))[n..];
      [chunks[0][n..]] + chunks[1..]
    else
      var tail := DropChars(chunks[1..], n - |chunks[0]|);
      [[]] + tail
  }

  lemma {:induction false} DropCharsSmaller(chunks: seq<string>, n: nat, limit: nat)
    requires n <= |Flatten(chunks)|
    requires Within(chunks, limit)
    ensures Within(DropChars(chunks, n), limit)
    decreases |chunks|
  {
    if chunks != [] {
      if n <= |chunks[0]| {
        assert chunks[0] == chunks[0][..n] + chunks[0][n..];
        UnitsConcat(chunks[0][..n], chunks[0][n..]);
      } else {
        DropCharsSmaller(chunks[1..], n - |chunks[0]|, limit);
      }
    }
  }

  /** A piece that starts where a greedy chunk starts never reaches past its end. */
  lemma GreedyReachesFurthest(chunk: string, after: string, piece: string, limit: nat)
    requires piece <= chunk + after && Units(piece) <= limit
    requires after != [] ==> Units(chunk) + Width(after[0]) > limit
    ensures |piece| <= |chunk|
  {
    if |piece| > |chunk| {
      var longer := chunk + [after[0]];
      assert piece[..|longer|] == longer;
      assert piece == longer + piece[|longer|..];
      UnitsConcat(longer, piece[|longer|..]);
      UnitsConcat(chunk, [after[0]]);
      UnitsOne(after[0]);
    }
  }

  /** Greedy optimality: no other way of cutting the text within the limit uses fewer pieces. */
  lemma {:induction false} GreedyIsFewest(chunks: seq<string>, other: seq<string>, text: string, limit: nat)
    requires Flatten(chunks) == text && Greedy(chunks, limit)
    requires Partition(other, text, limit)
    ensures |chunks| <= |other|
    decreases |other|
  {
    if chunks != [] {
      var head, tail := chunks[0], chunks[1..];
      var rest := Flatten(tail);
      assert text == head + rest && head != [];
      assert other != [];
      assert rest != [] ==> tail != [] && rest[0] == tail[0][0];
      assert other[0] <= head + rest;
      assert tail != [] ==> Full(chunks, 0, limit);
      forall i | 0 <= i < |tail| - 1 ensures Full(tail, i, limit) {
        assert Full(chunks, i + 1, limit);
      }
      GreedyReachesFurthest(head, rest, other[0], limit);
      var skipped := |head| - |other[0]|;
      assert Flatten(other[1..]) == text[|other[0]|..];
      var trimmed := DropChars(other[1..], skipped);
      DropCharsSmaller(other[1..], skipped, limit);
      assert Flatten(trimmed) == text[|other[0]|..][skipped..] == text[|head|..] == rest;
      GreedyIsFewest(tail, trimmed, rest, limit);
    }
  }

  /**
   * What the chunking loop keeps at a cut: the chunks so far are the text before `start`, and when
   * the limit has room for any character they are greedy, and the next one had to start here.
   */
  ghost predicate CutSoFar(chunks: seq<string>, text: string, start: nat, limit: nat) {
    && start <= |text| && Flatten(chunks) == text[..start]
    && (limit >= 2 ==>
          && Greedy(chunks, limit) && Within(chunks, limit)
          && (chunks != [] && start < |text| ==> Units(chunks[|chunks| - 1]) + Width(text[start]) > limit))
  }

  lemma GreedyAppend(chunks: seq<string>, piece: string, limit: nat)
    requires Greedy(chunks, limit) && Within(chunks, limit)
    requires piece != [] && Units(piece) <= limit
    requires chunks != [] ==> Units(chunks[|chunks| - 1]) + Width(piece[0]) > limit
    ensures Greedy(chunks + [piece], limit) && Within(chunks + [piece], limit)
  {
    var more := chunks + [piece];
    forall i | 0 <= i < |more| - 1 ensures Full(more, i, limit) {
      assert i + 1 < |chunks| ==> Full(chunks, i, limit);
    }
  }

  /** A chunk may end at `index` when the next character does not fit any more, or there is none. */
  lemma CutHere(chunks: seq<string>, text: string, start: nat, index: nat, limit: nat)
    requires CutSoFar(chunks, text, start, limit) && start <= index <= |text|
    requires limit >= 2 ==> start < index && Units(text[start..index]) <= limit
    requires limit >= 2 && index < |text| ==> Units(text[start..index]) + Width(text[index]) > limit
    ensures CutSoFar(chunks + [text[start..index]], text, index, limit)
  {
    var piece := text[start..index];
    FlattenAppend(chunks, piece);
    assert text[..start] + piece == text[..index];
    if limit >= 2 {
      assert piece[0] == text[start];
      GreedyAppend(chunks, piece, limit);
    }
  }

  lemma OneMore(text: string, start: nat, index: nat)
    requires start <= index < |text|
    ensures Units(text[start..index + 1]) == Units(text[start..index]) + Width(text[index])
  {
    assert text[start..index + 1] == text[start..index] + [text[index]];
    UnitsConcat(text[start..index], [text[index]]);
    UnitsOne(text[index]);
  }

  lemma {:induction false} NoneFewer(chunks: seq<string>, text: string, limit: nat)
    requires Flatten(chunks) == text && Greedy(chunks, limit)
    ensures forall other :: Partition(other, text, limit) ==> |chunks| <= |other|
  {
    forall other | Partition(other, text, limit) ensures |chunks| <= |other| {
      GreedyIsFewest(chunks, other, text, limit);
    }
  }

  /**
   * `chunk_by_utf16`. Nothing is lost or reordered whatever the limit; with room for any one
   * character, every chunk is non-empty and within the limit, and no other cut has fewer chunks.
   */
  method ChunkByUtf16(text: string, limit: nat) returns (chunks: seq<string>)
    ensures Flatten(chunks) == text
    ensures limit >= 2 ==> Partition(chunks, text, limit) && Greedy(chunks, limit)
    ensures limit >= 2 ==> forall other :: Partition(other, text, limit) ==> |chunks| <= |other|
  {
    chunks := [];
    var start := 0;
    var units := 0;
    for index := 0 to |text|
      invariant 0 <= start <= index && CutSoFar(chunks, text, start, limit)
      invariant units == Units(text[start..index])
      invariant limit >= 2 ==> units <= limit && (start == index ==> index == 0)
    {
      var width := Width(text[index]);
      if units + width > limit {
        CutHere(chunks, text, start, index, limit);
        chunks := chunks + [text[start..index]];
        start := index;
        units := 0;
      }
      OneMore(text, start, index);
      units := units + width;
    }
    if start < |text| {
      CutHere(chunks, text, start, |text|, limit);
      chunks := chunks + [text[start..|text|]];
    }
    assert text[..|text|] == text;
    if limit >= 2 {
      NoneFewer(chunks, text, limit);
    }
  }

  function Singles(text: string): seq<string> {
    if text == [] then [] else [[text[0]]] + Singles(text[1..])
  }

  lemma {:induction false} SinglesPartition(text: string)
    ensures Partition(Singles(text), text, 2)
  {
    if text != [] {
      SinglesPartition(text[1..]);
      UnitsOne(text[0]);
      assert text == [text[0]] + text[1..];
    }
  }

  ghost predicate Cuttable(text: string, limit: nat) {
    exists chunks :: Partition(chunks, text, limit)
  }

  /** Every text can be cut within the limit exactly when the limit has room for a surrogate pair. */
  lemma LimitTwoIsNeeded(limit: nat)
    ensures (forall text :: Cuttable(text, limit)) <==> limit >= 2
  {
    if limit >= 2 {
      forall text ensures Cuttable(text, limit) {
        SinglesPartition(text);
        assert Partition(Singles(text), text, limit);
      }
    } else {
      var c := 0x1_F600 as char;
      forall chunks ensures !Partition(chunks, [c], limit) {
        if Flatten(chunks) == [c] { NoNarrowCut(chunks, c); }
      }
      assert !Cuttable([c], limit);
    }
  }

  lemma {:induction false} NoNarrowCut(chunks: seq<string>, c: char)
    requires c as int >= 0x1_0000 && Flatten(chunks) == [c]
    ensures exists i :: 0 <= i < |chunks| && Units(chunks[i]) > 1
    decreases |chunks|
  {
    assert chunks != [];
    if chunks[0] == [] {
      NoNarrowCut(chunks[1..], c);
      var i :| 0 <= i < |chunks[1..]| && Units(chunks[1..][i]) > 1;
      assert Units(chunks[i + 1]) > 1;
    } else {
      assert chunks[0] == [c];
      UnitsOne(c);
      assert Units(chunks[0]) == 2;
    }
  }

  lemma {:induction false} SinglesCount(text: string)
    ensures |Singles(text)| == |text| <= Units(text)
  {
    if text != [] { SinglesCount(text[1..]); }
  }

  // Delivery.

  datatype TextEvent = TextEvent(units: seq<Unit>, up: bool)

  /** What an application reads from the first `n` events: the text of every key-down, in order. */
  function Read(events: seq<TextEvent>, n: nat): seq<Unit>
    requires n <= |events|
  {
    if n == 0 then [] else Read(events, n - 1) + (if events[n - 1].up then [] else events[n - 1].units)
  }

  function Typed(events: seq<TextEvent>): seq<Unit> {
    Read(events, |events|)
  }

  lemma {:induction false} ReadAgrees(a: seq<TextEvent>, b: seq<TextEvent>, n: nat)
    requires n <= |a| && n <= |b| && forall i :: 0 <= i < n ==> a[i] == b[i]
    ensures Read(a, n) == Read(b, n)
  {
    if n > 0 { ReadAgrees(a, b, n - 1); }
  }

  lemma TypedOne(events: seq<TextEvent>, e: TextEvent)
    ensures Typed(events + [e]) == Typed(events) + (if e.up then [] else e.units)
  {
    ReadAgrees(events + [e], events, |events|);
  }

  /** Events `2i` and `2i + 1` are a down and an up carrying these units. */
  predicate IsPair(batch: seq<TextEvent>, i: nat, us: seq<Unit>) {
    |batch| >= 2 * i + 2 && batch[2 * i] == TextEvent(us, false) && batch[2 * i + 1] == TextEvent(us, true)
  }

  /** One down and one up for each of the first `n` units. */
  ghost predicate IsBatch(batch: seq<TextEvent>, units: seq<Unit>, n: nat)
    requires n <= |units|
  {
    && |batch| == 2 * n
    && forall i :: 0 <= i < n ==> IsPair(batch, i, [units[i]])
  }

  method BuildBatch(units: seq<Unit>) returns (batch: seq<TextEvent>)
    ensures IsBatch(batch, units, |units|)
  {
    batch := [];
    for i := 0 to |units|
      invariant IsBatch(batch, units, i)
    {
      ghost var before := batch;
      batch := batch + [TextEvent([units[i]], false)];
      batch := batch + [TextEvent([units[i]], true)];
      forall j | 0 <= j < i + 1 ensures IsPair(batch, j, [units[j]]) {
        assert j < i ==> IsPair(before, j, [units[j]]);
      }
    }
  }

  lemma {:induction false} ReadPair(batch: seq<TextEvent>, i: nat, us: seq<Unit>)
    requires IsPair(batch, i, us)
    ensures Read(batch, 2 * i + 1) == Read(batch, 2 * i) + us
    ensures Read(batch, 2 * i + 2) == Read(batch, 2 * i) + us
  {
    var n := 2 * i;
    assert Read(batch, n + 1) == Read(batch, n) + us;
    assert Read(batch, n + 2) == Read(batch, n + 1) + [];
  }

  lemma {:induction false} ReadPairs(batch: seq<TextEvent>, units: seq<Unit>, k: nat)
    requires k <= |units| && IsBatch(batch, units, |units|)
    ensures Read(batch, 2 * k) == units[..k]
  {
    if k > 0 {
      var j := k - 1;
      ReadPairs(batch, units, j);
      assert IsPair(batch, j, [units[j]]);
      ReadPair(batch, j, [units[j]]);
      assert units[..k] == units[..j] + [units[j]];
    }
  }

  /** Any prefix of a batch types a prefix of its units; a pair cut in half has already typed its unit. */
  lemma {:induction false} ReadBatch(batch: seq<TextEvent>, units: seq<Unit>, k: nat)
    requires k <= |units| && IsBatch(batch, units, |units|)
    ensures Read(batch, 2 * k) == units[..k]
    ensures k < |units| ==> Read(batch, 2 * k + 1) == units[..k + 1]
  {
    ReadPairs(batch, units, k);
    if k < |units| {
      assert IsPair(batch, k, [units[k]]);
      ReadPair(batch, k, [units[k]]);
      assert units[..k + 1] == units[..k] + [units[k]];
    }
  }

  lemma {:induction false} ReadBatchUpTo(batch: seq<TextEvent>, units: seq<Unit>, n: nat)
    requires n <= |batch| && IsBatch(batch, units, |units|)
    ensures Read(batch, n) == units[..(n + 1) / 2]
  {
    ReadBatch(batch, units, n / 2);
  }

  lemma SliceMiddle(a: seq<Unit>, b: seq<Unit>, c: seq<Unit>, n: nat)
    requires n <= |b|
    ensures (a + b + c)[..|a| + n] == (a + b + c)[..|a|] + b[..n]
  {}

  /** The units of a text up to somewhere inside its middle part. */
  lemma {:induction false} UnitsUpTo(a: string, b: string, c: string, n: nat)
    requires n <= Units(b)
    ensures Units(a + b) == Units(a) + Units(b) <= Units(a + b + c)
    ensures Utf16(a + b + c)[..Units(a) + n] == Utf16(a + b + c)[..Units(a)] + Utf16(b)[..n]
  {
    Utf16Concat(a + b, c);
    Utf16Concat(a, b);
    SliceMiddle(Utf16(a), Utf16(b), Utf16(c), n);
  }

  /** `n` units had arrived, and `m` more do. */
  lemma Arrives(before: seq<Unit>, whole: seq<Unit>, n: nat, part: seq<Unit>)
    requires n + |part| <= |whole| && whole[..n + |part|] == whole[..n] + part
    ensures before + whole[..n] + part == before + whole[..n + |part|]
  {}

  lemma {:induction false} FlattenSplit(chunks: seq<string>, i: nat)
    requires i < |chunks|
    ensures Flatten(chunks) == Flatten(chunks[..i]) + chunks[i] + Flatten(chunks[i + 1..])
  {
    if i > 0 {
      FlattenSplit(chunks[1..], i - 1);
      assert chunks[1..][..i - 1] == chunks[..i][1..] && chunks[1..][i..] == chunks[i + 1..];
    }
  }

  lemma {:induction false} FlattenTake(chunks: seq<string>, i: nat)
    requires i < |chunks|
    ensures Flatten(chunks[..i + 1]) == Flatten(chunks[..i]) + chunks[i]
  {
    assert chunks[..i + 1] == chunks[..i] + [chunks[i]];
    FlattenAppend(chunks[..i], chunks[i]);
  }

  /** The units typed when the chunks before `i` and `n` units of chunk `i` have arrived. */
  lemma {:induction false} TypedChunks(chunks: seq<string>, i: nat, n: nat)
    requires i < |chunks| && n <= Units(chunks[i])
    ensures var start, whole := Units(Flatten(chunks[..i])), Utf16(Flatten(chunks));
            && start + Units(chunks[i]) == Units(Flatten(chunks[..i + 1])) <= |whole|
            && whole[..start + n] == whole[..start] + Utf16(chunks[i])[..n]
  {
    FlattenSplit(chunks, i);
    UnitsUpTo(Flatten(chunks[..i]), chunks[i], Flatten(chunks[i + 1..]), n);
    FlattenTake(chunks, i);
  }

  /** At most one chunk per character, so at most one per unit. */
  method MacChunks(text: string) returns (chunks: seq<string>)
    ensures Flatten(chunks) == text && |chunks| <= Units(text)
    ensures forall i :: 0 <= i < |chunks| ==> |Utf16(chunks[i])| <= TEXT_CHUNK_UTF16
  {
    chunks := ChunkByUtf16(text, TEXT_CHUNK_UTF16);
    SinglesPartition(text);
    SinglesCount(text);
    assert Partition(Singles(text), text, TEXT_CHUNK_UTF16);
  }

  /**
   * A keyboard that types by posting text events, the Windows way or the macOS way. The system
   * takes `room` more events and refuses what comes after.
   */
  class Keyboard {
    var events: seq<TextEvent>
    var room: nat
    const windows: bool

    constructor (windows: bool, room: nat)
      ensures events == [] && this.room == room && this.windows == windows
    {
      events := [];
      this.room := room;
      this.windows := windows;
    }

    /** How many events the system has been willing to take in all. */
    function Willing(): nat
      reads this
    {
      |events| + room
    }

    /** `send`: the system takes as long a prefix of the batch as it has room for. */
    method Send(batch: seq<TextEvent>) returns (ok: bool)
      modifies this
      ensures Willing() == old(Willing())
      ensures ok <==> |batch| <= old(room)
      ensures |events| == |old(events)| + if ok then |batch| else old(room)
      ensures Typed(events) == Typed(old(events)) + Read(batch, if ok then |batch| else old(room))
    {
      var accepted := if |batch| <= room then |batch| else room;
      for j := 0 to accepted
        invariant |events| == |old(events)| + j && room == old(room) - j
        invariant Typed(events) == Typed(old(events)) + Read(batch, j)
      {
        TypedOne(events, batch[j]);
        events, room := events + [batch[j]], room - 1;
      }
      return accepted == |batch|;
    }

    /** Windows: one down and one up per UTF-16 unit, in one batch. `n` units arrive. */
    method WindowsText(text: string) returns (ok: bool, ghost n: nat)
      modifies this
      ensures Willing() == old(Willing())
      ensures ok <==> 2 * Units(text) <= old(room)
      ensures |events| == |old(events)| + if ok then 2 * Units(text) else old(room)
      ensures n <= Units(text) && Typed(events) == Typed(old(events)) + Utf16(text)[..n]
      ensures n == if ok then Units(text) else (old(room) + 1) / 2
    {
      var units := Utf16(text);
      if text == [] {
        assert Typed(events) + units[..0] == Typed(events);
        return true, 0;
      }
      var batch := BuildBatch(units);
      ok := Send(batch);
      ghost var taken := if ok then 2 * |units| else old(room);
      n := (taken + 1) / 2;
      ReadBatchUpTo(batch, units, taken);
    }

    /** Every event posted since the first `from` carries at most a chunk. */
    ghost predicate SmallSince(from: nat)
      reads this
    {
      from <= |events| && forall k :: from <= k < |events| ==> |events[k].units| <= 20
    }

    /** macOS: a down event carrying the chunk, then an up event; either may be refused. */
    method PostChunk(us: seq<Unit>, ghost from: nat) returns (ok: bool, ghost n: nat)
      requires |us| <= TEXT_CHUNK_UTF16 && SmallSince(from)
      modifies this
      ensures Willing() == old(Willing()) && SmallSince(from)
      ensures ok <==> 2 <= old(room)
      ensures |events| == |old(events)| + if ok then 2 else old(room)
      ensures n == (if old(room) == 0 then 0 else |us|) && Typed(events) == Typed(old(events)) + us[..n]
    {
      n := 0;
      TypedOne(events, TextEvent(us, false));
      TypedOne(events + [TextEvent(us, false)], TextEvent(us, true));
      if room == 0 {
        return false, 0;
      }
      events, room, n := events + [TextEvent(us, false)], room - 1, |us|;
      if room == 0 {
        return false, n;
      }
      events, room := events + [TextEvent(us, true)], room - 1;
      return true, n;
    }

    /** macOS: one down and one up per chunk of at most twenty units, until one is refused. */
    method MacText(text: string) returns (ok: bool, ghost n: nat)
      modifies this
      ensures Willing() == old(Willing())
      ensures 2 * Units(text) <= old(room) ==> ok
      ensures n <= Units(text) && Typed(events) == Typed(old(events)) + Utf16(text)[..n]
      ensures ok ==> n == Units(text)
      ensures |old(events)| <= |events| <= |old(events)| + 2 * Units(text)
      ensures SmallSince(|old(events)|)
    {
      n := 0;
      if text == [] {
        assert Typed(events) + Utf16(text)[..0] == Typed(events);
        return true, 0;
      }
      var chunks := MacChunks(text);
      ghost var before, whole := Typed(events), Utf16(text);
      for i := 0 to |chunks|
        invariant n == Units(Flatten(chunks[..i])) <= |whole|
        invariant Typed(events) == before + whole[..n]
        invariant |events| == |old(events)| + 2 * i && Willing() == old(Willing())
        invariant SmallSince(|old(events)|)
      {
        var us := Utf16(chunks[i]);
        var posted, arrived := PostChunk(us, |old(events)|);
        TypedChunks(chunks, i, arrived);
        Arrives(before, whole, n, us[..arrived]);
        n := n + arrived;
        if !posted {
          return false, n;
        }
      }
      assert chunks[..|chunks|] == chunks;
      return true, n;
    }

    /**
     * Either way the first `n` units arrive, in order: all of them when the answer is Ok, which it
     * is whenever the system takes two events per unit, and on Windows only then.
     */
    method TypeText(text: string) returns (ok: bool, ghost n: nat)
      modifies this
      ensures Willing() == old(Willing())
      ensures 2 * Units(text) <= old(room) ==> ok
      ensures windows && ok ==> |events| == |old(events)| + 2 * Units(text)
      ensures n <= Units(text) && Typed(events) == Typed(old(events)) + Utf16(text)[..n]
      ensures ok ==> n == Units(text)
      ensures |old(events)| <= |events| <= |old(events)| + 2 * Units(text)
    {
      if windows {
        ok, n := WindowsText(text);
      } else {
        ok, n := MacText(text);
      }
    }
  }

  /** The units typed when the characters before `i` and `n` units of the next have arrived. */
  lemma {:induction false} TypedCharacters(text: string, i: nat, single: string, n: nat)
    requires i < |text| && single == text[i..i + 1] && n <= Units(single)
    ensures Units(text[..i + 1]) == Units(text[..i]) + Units(single) <= Units(text)
    ensures Utf16(text)[..Units(text[..i]) + n] == Utf16(text)[..Units(text[..i])] + Utf16(single)[..n]
  {
    assert text[..i + 1] == text[..i] + single && text == text[..i] + single + text[i + 1..];
    UnitsUpTo(text[..i], single, text[i + 1..], n);
  }

  /** Character by character, stopping at the first that is not taken in full. */
  method TypeSlowly(keyboard: Keyboard, text: string) returns (ok: bool, ghost n: nat)
    modifies keyboard
    ensures keyboard.Willing() == old(keyboard.Willing())
    ensures 2 * Units(text) <= old(keyboard.room) ==> ok
    ensures keyboard.windows && ok ==> |keyboard.events| == |old(keyboard.events)| + 2 * Units(text)
    ensures n <= Units(text) && Typed(keyboard.events) == Typed(old(keyboard.events)) + Utf16(text)[..n]
    ensures ok ==> n == Units(text)
    ensures |keyboard.events| <= |old(keyboard.events)| + 2 * Units(text)
  {
    n := 0;
    for i := 0 to |text|
      invariant n == Units(text[..i]) <= Units(text)
      invariant Typed(keyboard.events) == Typed(old(keyboard.events)) + Utf16(text)[..n]
      invariant keyboard.Willing() == old(keyboard.Willing())
      invariant |keyboard.events| <= |old(keyboard.events)| + 2 * n
      invariant keyboard.windows ==> |keyboard.events| == |old(keyboard.events)| + 2 * n
    {
      var single := text[i..i + 1];
      var typed, arrived := keyboard.TypeText(single);
      TypedCharacters(text, i, single, arrived);
      Arrives(Typed(old(keyboard.events)), Utf16(text), n, Utf16(single)[..arrived]);
      n := n + arrived;
      if !typed {
        return false, n;
      }
    }
    assert text[..|text|] == text;
    return true, n;
  }

  /**
   * `input.text`, at once or character by character, on either platform. An over-long text is
   * refused untyped. Otherwise the application reads the first `n` units of what was sent, and all
   * of them, decoding to the very string, when the answer is Ok; nothing but a system that takes
   * fewer than two events per unit, at most 8192 in all, can make it fail.
   */
  method DispatchText(keyboard: Keyboard, text: string, delayMs: nat) returns (r: Result<(), Error>, ghost n: nat)
    modifies keyboard
    ensures r == Err(Wire(BadRequest)) <==> |Utf8(text)| > 4096
    ensures r == Err(Wire(BadRequest)) ==> keyboard.events == old(keyboard.events)
    ensures r.Err? ==> r.error in {Wire(BadRequest), Wire(InjectionFailed)}
    ensures n <= Units(text) && Typed(keyboard.events) == Typed(old(keyboard.events)) + Utf16(text)[..n]
    ensures r.Ok? ==> n == Units(text)
    ensures r.Ok? && old(keyboard.events) == [] ==> Decode(Typed(keyboard.events)) == Some(text)
    ensures r == Err(Wire(InjectionFailed)) ==> old(keyboard.room) < 2 * Units(text) <= 8192
    ensures keyboard.windows && r.Ok? ==> |keyboard.events| == |old(keyboard.events)| + 2 * Units(text)
    ensures |keyboard.events| <= |old(keyboard.events)| + 8192
  {
    n := 0;
    if Utf8Len(text) > MAX_TEXT_LEN {
      assert Typed(keyboard.events) + Utf16(text)[..0] == Typed(keyboard.events);
      return Err(Wire(BadRequest)), 0;
    }
    UnitsAtMostBytes(text);
    Utf16RoundTrips(text);
    var ok;
    if delayMs == 0 {
      ok, n := keyboard.TypeText(text);
    } else {
      ok, n := TypeSlowly(keyboard, text);
    }
    assert ok ==> Utf16(text)[..n] == Utf16(text);
    assert old(keyboard.events) == [] ==> Typed(old(keyboard.events)) + Utf16(text)[..n] == Utf16(text)[..n];
    return if ok then Ok(()) else Err(Wire(InjectionFailed)), n;
  }
}
