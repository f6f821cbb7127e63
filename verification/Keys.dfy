/** Key combos and sequences: what is pressed, what is released, and for how long. */
module Keys {
  import opened Basics

  type u32 = x: int | 0 <= x < 0x1_0000_0000

  const U64_RANGE: nat := 0x1_0000_0000_0000_0000

  const MAX_SEQUENCE_MS: nat := 30_000

  /** The four modifiers, and every other key by its number. */
  datatype Key = Control | Shift | Alt | Meta | Plain(number: nat)
  {
    predicate IsModifier() { !Plain? }
  }

  datatype KeyCombo = KeyCombo(keys: seq<Key>, holdMs: Option<u32>)
  {
    function HoldMs(): u32 {
      match holdMs case Some(ms) => ms case None => 0
    }
  }

  datatype SequenceStep = Combo(combo: KeyCombo) | Delay(delayMs: u32)

  datatype Call = KeyDown(key: Key) | KeyUp(key: Key)

  // Validation.

  function NonModifiers(keys: seq<Key>): nat {
    if keys == [] then 0 else (if keys[0].IsModifier() then 0 else 1) + NonModifiers(keys[1..])
  }

  predicate ValidCombo(c: KeyCombo) {
    c.keys != [] && NonModifiers(c.keys) <= 1
  }

  /** Two of these keys are not among `CONTROL`, `SHIFT`, `ALT` and `META`. */
  ghost predicate TwoPlain(keys: seq<Key>) {
    exists i, j :: 0 <= i < j < |keys| && keys[i].Plain? && keys[j].Plain?
  }

  /** A combo is accepted exactly when it has a key and no two positions hold non-modifiers. */
  lemma ValidMeans(c: KeyCombo)
    ensures ValidCombo(c) <==> |c.keys| > 0 && !TwoPlain(c.keys)
  {
    ValidMeansOneNonModifier(c.keys);
  }

  lemma {:induction false} ValidMeansOneNonModifier(keys: seq<Key>)
    ensures NonModifiers(keys) <= 1 <==> !TwoPlain(keys)
    ensures NonModifiers(keys) == 0 <==> forall i :: 0 <= i < |keys| ==> !keys[i].Plain?
  {
    if keys != [] {
      ValidMeansOneNonModifier(keys[1..]);
      assert forall i :: 1 <= i < |keys| ==> keys[i] == keys[1..][i - 1];
      assert forall i :: 0 <= i < |keys| - 1 ==> keys[1..][i] == keys[i + 1];
    }
  }

  predicate ValidSequence(steps: seq<SequenceStep>) {
    forall i :: 0 <= i < |steps| && steps[i].Combo? ==> ValidCombo(steps[i].combo)
  }

  // Traces.

  function Downs(keys: seq<Key>): seq<Call> {
    seq(|keys|, i requires 0 <= i < |keys| => KeyDown(keys[i]))
  }

  /** Releases, in reverse order. */
  function Ups(keys: seq<Key>): seq<Call> {
    seq(|keys|, i requires 0 <= i < |keys| => KeyUp(keys[|keys| - 1 - i]))
  }

  /** How many keys go down when the press at `failAt` fails. */
  function Pressed(keys: seq<Key>, failAt: Option<nat>): (n: nat)
    ensures n <= |keys|
  {
    if failAt.Some? && failAt.value < |keys| then failAt.value else |keys|
  }

  predicate ComboFails(keys: seq<Key>, failAt: Option<nat>) {
    failAt.Some? && failAt.value < |keys|
  }

  /** A press prefix, then its exact reverse release. */
  function ComboTrace(keys: seq<Key>, failAt: Option<nat>): seq<Call> {
    var pressed := keys[..Pressed(keys, failAt)];
    Downs(pressed) + Ups(pressed)
  }

  /** The trace read as operations on a stack of held keys; `None` when a release does not match the top. */
  function Replay(held: seq<Key>, trace: seq<Call>): Option<seq<Key>>
    decreases |trace|
  {
    if trace == [] then Some(held)
    else
      match trace[0]
      case KeyDown(k) => Replay(held + [k], trace[1..])
      case KeyUp(k) =>
        if held != [] && held[|held| - 1] == k then Replay(held[..|held| - 1], trace[1..]) else None
  }

  /** Whatever was held before, the same is held after, and every release matched its press. */
  ghost predicate Balanced(trace: seq<Call>) {
    forall held :: Replay(held, trace) == Some(held)
  }

  lemma {:induction false} ReplayConcat(held: seq<Key>, a: seq<Call>, b: seq<Call>)
    ensures Replay(held, a + b)
            == (match Replay(held, a) case None => None case Some(mid) => Replay(mid, b))
    decreases |a|
  {
    if a == [] {
      assert a + b == b;
    } else {
      assert (a + b)[1..] == a[1..] + b;
      match a[0]
      case KeyDown(k) => ReplayConcat(held + [k], a[1..], b);
      case KeyUp(k) =>
        if held != [] && held[|held| - 1] == k { ReplayConcat(held[..|held| - 1], a[1..], b); }
    }
  }

  lemma BalancedConcat(a: seq<Call>, b: seq<Call>)
    requires Balanced(a) && Balanced(b)
    ensures Balanced(a + b)
  {
    forall held ensures Replay(held, a + b) == Some(held) {
      ReplayConcat(held, a, b);
    }
  }

  lemma {:induction false} PressReleaseBalanced(keys: seq<Key>)
    ensures Balanced(Downs(keys) + Ups(keys))
  {
    forall held ensures Replay(held, Downs(keys) + Ups(keys)) == Some(held) {
      if keys != [] {
        var rest := keys[1..];
        var inner := Downs(rest) + Ups(rest);
        PressReleaseBalanced(rest);
        assert Downs(keys) + Ups(keys) == [KeyDown(keys[0])] + (inner + [KeyUp(keys[0])]);
        var now := held + [keys[0]];
        ReplayConcat(now, inner, [KeyUp(keys[0])]);
        assert Replay(now, inner) == Some(now);
        assert now[..|now| - 1] == held;
      }
    }
  }

  /** Whichever press fails, what a combo does is balanced: nothing stays latched. */
  lemma ComboBalanced(keys: seq<Key>, failAt: Option<nat>)
    ensures Balanced(ComboTrace(keys, failAt))
  {
    PressReleaseBalanced(keys[..Pressed(keys, failAt)]);
  }

  /**
   * What a sequence does from step `i` on, when step `n`'s combo fails its press `fails(n)`; it
   * stops at the first failure.
   */
  function TraceFrom(steps: seq<SequenceStep>, i: nat, fails: nat -> Option<nat>): seq<Call>
    requires i <= |steps|
    decreases |steps| - i
  {
    if i == |steps| then []
    else
      match steps[i]
      case Delay(_) => TraceFrom(steps, i + 1, fails)
      case Combo(c) =>
        ComboTrace(c.keys, fails(i))
        + (if ComboFails(c.keys, fails(i)) then [] else TraceFrom(steps, i + 1, fails))
  }

  predicate FailsFrom(steps: seq<SequenceStep>, i: nat, fails: nat -> Option<nat>)
    requires i <= |steps|
    decreases |steps| - i
  {
    i < |steps| && ((steps[i].Combo? && ComboFails(steps[i].combo.keys, fails(i))) || FailsFrom(steps, i + 1, fails))
  }

  /** Any sequence, failing anywhere or nowhere, ends with exactly the keys held that were held before it. */
  lemma {:induction false} SequenceBalanced(steps: seq<SequenceStep>, i: nat, fails: nat -> Option<nat>)
    requires i <= |steps|
    ensures Balanced(TraceFrom(steps, i, fails))
    decreases |steps| - i
  {
    if i < |steps| {
      SequenceBalanced(steps, i + 1, fails);
      if steps[i].Combo? {
        var own := ComboTrace(steps[i].combo.keys, fails(i));
        ComboBalanced(steps[i].combo.keys, fails(i));
        if ComboFails(steps[i].combo.keys, fails(i)) {
          assert own + [] == own;
        } else {
          BalancedConcat(own, TraceFrom(steps, i + 1, fails));
        }
      }
    }
  }

  // Time.

  function Cost(step: SequenceStep): u32 {
    match step
    case Delay(ms) => ms
    case Combo(c) => c.HoldMs()
  }

  function Total(steps: seq<SequenceStep>): nat {
    if steps == [] then 0 else Total(steps[..|steps| - 1]) + Cost(steps[|steps| - 1])
  }

  lemma {:induction false} TotalBound(steps: seq<SequenceStep>)
    ensures Total(steps) <= |steps| * 0xFFFF_FFFF
  {
    if steps != [] { TotalBound(steps[..|steps| - 1]); }
  }

  function Longest(n: nat): seq<SequenceStep> {
    seq(n, _ => Delay(0xFFFF_FFFF))
  }

  lemma {:induction false} LongestTotal(n: nat)
    ensures Total(Longest(n)) == n * 0xFFFF_FFFF
  {
    if n > 0 {
      LongestTotal(n - 1);
      assert Longest(n)[..n - 1] == Longest(n - 1);
    }
  }

  /** The `u64` sum cannot wrap for any sequence of `n` steps exactly when `n` is at most 2^32 + 1. */
  lemma SumNeverWrapsExactly(n: nat)
    ensures (forall steps :: |steps| == n ==> Total(steps) < U64_RANGE) <==> n <= 0x1_0000_0001
  {
    if n <= 0x1_0000_0001 {
      forall steps: seq<SequenceStep> | |steps| == n ensures Total(steps) < U64_RANGE {
        TotalBound(steps);
        assert |steps| * 0xFFFF_FFFF <= 0x1_0000_0001 * 0xFFFF_FFFF;
      }
    } else {
      LongestTotal(n);
      assert n * 0xFFFF_FFFF >= 0x1_0000_0002 * 0xFFFF_FFFF;
      assert |Longest(n)| == n && Total(Longest(n)) >= U64_RANGE;
    }
  }

  lemma {:induction false} PaddingCostsNothing(steps: seq<SequenceStep>, m: nat)
    ensures Total(steps + seq(m, _ => Delay(0))) == Total(steps)
  {
    var padded := steps + seq(m, _ => Delay(0));
    if m == 0 {
      assert padded == steps;
    } else {
      PaddingCostsNothing(steps, m - 1);
      assert padded[..|padded| - 1] == steps + seq(m - 1, _ => Delay(0));
    }
  }

  /** Just past the bound: this sum is 2^64, which wraps to 0. */
  lemma WrapsToZero()
    ensures Total(Longest(0x1_0000_0001) + [Delay(1)]) == U64_RANGE
  {
    LongestTotal(0x1_0000_0001);
    var steps := Longest(0x1_0000_0001) + [Delay(1)];
    assert steps[..|steps| - 1] == Longest(0x1_0000_0001);
  }

  ghost predicate CeilingHolds(steps: seq<SequenceStep>) {
    ValidSequence(steps) && Total(steps) % U64_RANGE <= MAX_SEQUENCE_MS ==> Total(steps) <= MAX_SEQUENCE_MS
  }

  /** The ceiling means what it says for every accepted sequence of `n` steps exactly when `n` is at most 2^32 + 1. */
  lemma CeilingHoldsExactly(n: nat)
    ensures (forall steps :: |steps| == n ==> CeilingHolds(steps)) <==> n <= 0x1_0000_0001
  {
    if n <= 0x1_0000_0001 {
      SumNeverWrapsExactly(n);
    } else {
      var bad := Longest(0x1_0000_0001) + [Delay(1)];
      var steps := bad + seq(n - |bad|, _ => Delay(0));
      WrapsToZero();
      PaddingCostsNothing(bad, n - |bad|);
      assert |steps| == n && !CeilingHolds(steps);
    }
  }

  /** Stopping early never asks for more. */
  lemma {:induction false} TotalMonotone(steps: seq<SequenceStep>, n: nat)
    requires n <= |steps|
    ensures Total(steps[..n]) <= Total(steps)
    decreases |steps|
  {
    if n < |steps| {
      var front := steps[..|steps| - 1];
      TotalMonotone(front, n);
      assert front[..n] == steps[..n];
    } else {
      assert steps[..n] == steps;
    }
  }

  /** What each kind of step adds to the time asked for; holds default to nothing. */
  lemma {:induction false} TotalAdds(steps: seq<SequenceStep>, keys: seq<Key>, ms: u32)
    ensures Total([]) == 0
    ensures Total(steps + [Delay(ms)]) == Total(steps) + ms
    ensures Total(steps + [Combo(KeyCombo(keys, Some(ms)))]) == Total(steps) + ms
    ensures Total(steps + [Combo(KeyCombo(keys, None))]) == Total(steps)
  {
    assert (steps + [Delay(ms)])[..|steps|] == steps;
    assert (steps + [Combo(KeyCombo(keys, Some(ms)))])[..|steps|] == steps;
    assert (steps + [Combo(KeyCombo(keys, None))])[..|steps|] == steps;
  }

  // Which keys are pressed.

  function KeysPressed(trace: seq<Call>): seq<Key> {
    if trace == [] then []
    else (if trace[0].KeyDown? then [trace[0].key] else []) + KeysPressed(trace[1..])
  }

  /** The keys of every combo, one combo after another. */
  function KeysOf(steps: seq<SequenceStep>): seq<Key> {
    if steps == [] then []
    else (match steps[0] case Delay(_) => [] case Combo(c) => c.keys) + KeysOf(steps[1..])
  }

  lemma {:induction false} PressedConcat(a: seq<Call>, b: seq<Call>)
    ensures KeysPressed(a + b) == KeysPressed(a) + KeysPressed(b)
  {
    if a == [] {
      assert a + b == b;
    } else {
      var first := if a[0].KeyDown? then [a[0].key] else [];
      var whole := a + b;
      assert whole[0] == a[0] && whole[1..] == a[1..] + b;
      PressedConcat(a[1..], b);
      calc {
        KeysPressed(whole);
        first + KeysPressed(a[1..] + b);
        first + (KeysPressed(a[1..]) + KeysPressed(b));
        first + KeysPressed(a[1..]) + KeysPressed(b);
      }
    }
  }

  lemma {:induction false} DownsPress(keys: seq<Key>)
    ensures KeysPressed(Downs(keys)) == keys
  {
    if keys != [] {
      assert Downs(keys)[1..] == Downs(keys[1..]);
      DownsPress(keys[1..]);
    }
  }

  lemma {:induction false} ReleasesPressNothing(trace: seq<Call>)
    requires forall i :: 0 <= i < |trace| ==> trace[i].KeyUp?
    ensures KeysPressed(trace) == []
  {
    if trace != [] { ReleasesPressNothing(trace[1..]); }
  }

  /** A combo presses its keys in order, up to the press that fails. */
  lemma ComboPresses(keys: seq<Key>, failAt: Option<nat>)
    ensures KeysPressed(ComboTrace(keys, failAt))
            == if failAt.Some? && failAt.value < |keys| then keys[..failAt.value] else keys
  {
    var pressed := keys[..Pressed(keys, failAt)];
    PressedConcat(Downs(pressed), Ups(pressed));
    DownsPress(pressed);
    ReleasesPressNothing(Ups(pressed));
  }

  /** A sequence in which nothing fails presses the keys of all its combos, in order. */
  lemma {:induction false} SequencePresses(steps: seq<SequenceStep>, i: nat, fails: nat -> Option<nat>)
    requires i <= |steps| && !FailsFrom(steps, i, fails)
    ensures KeysPressed(TraceFrom(steps, i, fails)) == KeysOf(steps[i..])
    decreases |steps| - i
  {
    if i < |steps| {
      assert steps[i..][1..] == steps[i + 1..];
      SequencePresses(steps, i + 1, fails);
      if steps[i].Combo? {
        var own := ComboTrace(steps[i].combo.keys, fails(i));
        ComboPresses(steps[i].combo.keys, fails(i));
        PressedConcat(own, TraceFrom(steps, i + 1, fails));
      }
    }
  }

  /**
   * What a combo adds to the record, call by call: `n` keys down in order and the same up in
   * reverse, `n` being the failing index, or the number of keys when no press of theirs fails.
   */
  ghost predicate RecordsCombo(before: seq<Call>, after: seq<Call>, keys: seq<Key>, failAt: Option<nat>) {
    var n := if failAt.Some? && failAt.value < |keys| then failAt.value else |keys|;
    && |after| == |before| + 2 * n && after[..|before|] == before
    && forall i :: 0 <= i < n ==>
         after[|before| + i] == KeyDown(keys[i]) && after[|before| + 2 * n - 1 - i] == KeyUp(keys[i])
  }

  lemma TraceIsRecorded(before: seq<Call>, keys: seq<Key>, failAt: Option<nat>)
    ensures RecordsCombo(before, before + ComboTrace(keys, failAt), keys, failAt)
  {}

  // The recording backend, and the dispatcher that walks a sequence over it.

  class MockBackend {
    var calls: seq<Call>
    const failPressAt: Option<nat>

    constructor (failPressAt: Option<nat>)
      ensures calls == [] && this.failPressAt == failPressAt
    {
      calls := [];
      this.failPressAt := failPressAt;
    }

    method KeyCombo(keys: seq<Key>) returns (r: Result<(), Error>)
      modifies this
      ensures calls == old(calls) + ComboTrace(keys, failPressAt)
      ensures RecordsCombo(old(calls), calls, keys, failPressAt)
      ensures r == if failPressAt.Some? && failPressAt.value < |keys| then Err(Wire(InjectionFailed)) else Ok(())
    {
      var pressed: seq<Key> := [];
      var failed := false;
      var index := 0;
      while index < |keys| && !failed
        invariant 0 <= index <= |keys|
        invariant pressed == keys[..index] && index <= Pressed(keys, failPressAt)
        invariant calls == old(calls) + Downs(pressed)
        invariant failed ==> failPressAt == Some(index) && index < |keys|
        decreases |keys| - index, !failed
      {
        if failPressAt == Some(index) {
          failed := true;
        } else {
          calls := calls + [KeyDown(keys[index])];
          pressed := pressed + [keys[index]];
          index := index + 1;
        }
      }
      assert index == Pressed(keys, failPressAt) && failed == ComboFails(keys, failPressAt);
      for released := 0 to |pressed|
        invariant calls == old(calls) + Downs(pressed) + Ups(pressed)[..released]
      {
        calls := calls + [KeyUp(pressed[|pressed| - 1 - released])];
      }
      assert Ups(pressed)[..|pressed|] == Ups(pressed);
      TraceIsRecorded(old(calls), keys, failPressAt);
      return if failed then Err(Wire(InjectionFailed)) else Ok(());
    }
  }

  /** `input.key_combo`. */
  method DispatchCombo(backend: MockBackend, request: KeyCombo) returns (r: Result<(), Error>)
    modifies backend
    ensures |request.keys| == 0 || TwoPlain(request.keys) ==>
              r == Err(Wire(BadRequest)) && backend.calls == old(backend.calls)
    ensures |request.keys| > 0 && !TwoPlain(request.keys) ==>
              var fails := backend.failPressAt.Some? && backend.failPressAt.value < |request.keys|;
              && backend.calls == old(backend.calls) + ComboTrace(request.keys, backend.failPressAt)
              && RecordsCombo(old(backend.calls), backend.calls, request.keys, backend.failPressAt)
              && r == if fails then Err(Wire(InjectionFailed)) else Ok(())
  {
    ValidMeans(request);
    if !ValidCombo(request) {
      return Err(Wire(BadRequest));
    }
    r := backend.KeyCombo(request.keys);
  }

  /** Dispatching a combo that was validated before: validating it again never refuses it. */
  method DispatchChecked(backend: MockBackend, request: KeyCombo) returns (r: Result<(), Error>)
    requires ValidCombo(request)
    modifies backend
    ensures backend.calls == old(backend.calls) + ComboTrace(request.keys, backend.failPressAt)
    ensures r == if ComboFails(request.keys, backend.failPressAt) then Err(Wire(InjectionFailed)) else Ok(())
  {
    ValidMeans(request);
    r := DispatchCombo(backend, request);
  }

  method ValidateSequence(steps: seq<SequenceStep>) returns (ok: bool)
    ensures ok <==> ValidSequence(steps)
  {
    for i := 0 to |steps|
      invariant forall k :: 0 <= k < i && steps[k].Combo? ==> ValidCombo(steps[k].combo)
    {
      if steps[i].Combo? && !ValidCombo(steps[i].combo) {
        return false;
      }
    }
    return true;
  }

  /** The `u64` sum, wrapping as a release build does. */
  method SumMilliseconds(steps: seq<SequenceStep>) returns (total: nat)
    ensures total == Total(steps) % U64_RANGE
    ensures |steps| <= 0x1_0000_0001 ==> total == Total(steps)
  {
    total := 0;
    for i := 0 to |steps|
      invariant total == Total(steps[..i]) % U64_RANGE
    {
      assert steps[..i + 1][..i] == steps[..i];
      var ms := match steps[i] case Delay(delay) => delay case Combo(c) => if c.holdMs.Some? then c.holdMs.value else 0;
      total := (total + ms) % U64_RANGE;
    }
    assert steps[..|steps|] == steps;
    if |steps| <= 0x1_0000_0001 {
      SumNeverWrapsExactly(|steps|);
    }
  }

  /** The walk: sleeps for delays, calls the backend for combos, stops at the first failure. */
  method WalkSteps(backend: MockBackend, steps: seq<SequenceStep>) returns (r: Result<(), Error>, asked: nat)
    requires ValidSequence(steps)
    modifies backend
    ensures var fails := (_: nat) => backend.failPressAt;
            && backend.calls == old(backend.calls) + TraceFrom(steps, 0, fails)
            && r == if FailsFrom(steps, 0, fails) then Err(Wire(InjectionFailed)) else Ok(())
    ensures asked <= Total(steps)
    ensures r.Ok? ==> asked == Total(steps)
  {
    asked := 0;
    ghost var fails := (_: nat) => backend.failPressAt;
    for i := 0 to |steps|
      invariant asked == Total(steps[..i])
      invariant backend.calls + TraceFrom(steps, i, fails) == old(backend.calls) + TraceFrom(steps, 0, fails)
      invariant FailsFrom(steps, 0, fails) <==> FailsFrom(steps, i, fails)
    {
      assert steps[..i + 1][..i] == steps[..i];
      TotalMonotone(steps, i + 1);
      match steps[i] {
        case Delay(ms) =>
          asked := asked + ms;
        case Combo(combo) =>
          asked := asked + if combo.holdMs.Some? then combo.holdMs.value else 0;
          var step := DispatchChecked(backend, combo);
          if step.Err? {
            return step, asked;
          }
      }
    }
    assert steps[..|steps|] == steps;
    return Ok(()), asked;
  }

  /**
   * `input.key_sequence`. A refused sequence makes no backend call; once the walk has begun no step
   * is refused, so the only error left is a failed injection; and no run of a sequence short enough
   * for the sum to be exact asks for more than the ceiling.
   */
  method DispatchSequence(backend: MockBackend, steps: seq<SequenceStep>)
    returns (r: Result<(), Error>, asked: nat)
    modifies backend
    ensures r == Err(Wire(BadRequest)) <==>
              || (exists i :: 0 <= i < |steps| && steps[i].Combo?
                              && (|steps[i].combo.keys| == 0 || TwoPlain(steps[i].combo.keys)))
              || Total(steps) % U64_RANGE > 30_000
    ensures r == Err(Wire(BadRequest)) ==> backend.calls == old(backend.calls) && asked == 0
    ensures r != Err(Wire(BadRequest)) ==>
              var fails := (_: nat) => backend.failPressAt;
              && backend.calls == old(backend.calls) + TraceFrom(steps, 0, fails)
              && r == (if FailsFrom(steps, 0, fails) then Err(Wire(InjectionFailed)) else Ok(()))
    ensures r.Ok? ==> asked == Total(steps)
    ensures r.Ok? ==> exists trace :: backend.calls == old(backend.calls) + trace && KeysPressed(trace) == KeysOf(steps)
    ensures |steps| <= 0x1_0000_0001 ==> asked <= 30_000
  {
    asked := 0;
    forall i | 0 <= i < |steps| && steps[i].Combo?
      ensures ValidCombo(steps[i].combo) <==> |steps[i].combo.keys| > 0 && !TwoPlain(steps[i].combo.keys)
    {
      ValidMeans(steps[i].combo);
    }
    var valid := ValidateSequence(steps);
    if !valid {
      return Err(Wire(BadRequest)), 0;
    }
    var total := SumMilliseconds(steps);
    if total > MAX_SEQUENCE_MS {
      return Err(Wire(BadRequest)), 0;
    }
    r, asked := WalkSteps(backend, steps);
    if r.Ok? {
      ghost var fails := (_: nat) => backend.failPressAt;
      SequencePresses(steps, 0, fails);
      assert steps[0..] == steps;
    }
  }

  // Windows: two batches, of which the system may accept any prefix.

  /** Which keys the desktop sees held after some events. */
  function Held(held: set<Key>, events: seq<Call>): set<Key> {
    if events == [] then held
    else
      var before := Held(held, events[..|events| - 1]);
      match events[|events| - 1]
      case KeyDown(k) => before + {k}
      case KeyUp(k) => before - {k}
  }

  lemma {:induction false} HeldAfterDowns(held: set<Key>, keys: seq<Key>, p: nat)
    requires p <= |keys|
    ensures forall k :: k in Held(held, Downs(keys)[..p]) <==> k in held || k in keys[..p]
  {
    if p > 0 {
      HeldAfterDowns(held, keys, p - 1);
      assert Downs(keys)[..p][..p - 1] == Downs(keys)[..p - 1];
      assert keys[..p] == keys[..p - 1] + [keys[p - 1]];
    }
  }

  lemma {:induction false} HeldAfterUps(held: set<Key>, keys: seq<Key>, q: nat)
    requires q <= |keys|
    ensures forall k :: k in Held(held, Ups(keys)[..q]) <==> k in held && k !in keys[|keys| - q..]
  {
    if q > 0 {
      HeldAfterUps(held, keys, q - 1);
      assert Ups(keys)[..q][..q - 1] == Ups(keys)[..q - 1];
      assert keys[|keys| - q..] == [keys[|keys| - q]] + keys[|keys| - q + 1..];
    }
  }

  /** The desktop: `SendInput` inserts a prefix of what it is given. */
  class Desktop {
    var held: set<Key>
    var inserted: seq<Call>

    constructor (held: set<Key>)
      ensures this.held == held && inserted == []
    {
      this.held := held;
      inserted := [];
    }

    method SendInput(events: seq<Call>, accepted: nat) returns (count: nat)
      requires accepted <= |events|
      modifies this
      ensures held == Held(old(held), events[..accepted]) && inserted == old(inserted) + events[..accepted]
      ensures count == accepted
    {
      for i := 0 to accepted
        invariant held == Held(old(held), events[..i]) && inserted == old(inserted) + events[..i]
      {
        assert events[..i + 1][..i] == events[..i];
        assert events[..i + 1] == events[..i] + [events[i]];
        inserted := inserted + [events[i]];
        match events[i] {
          case KeyDown(k) => held := held + {k};
          case KeyUp(k) => held := held - {k};
        }
      }
      count := accepted;
    }

    /** `send`: Ok exactly when the system took the whole batch. */
    method Send(events: seq<Call>, accepted: nat) returns (ok: bool)
      requires accepted <= |events|
      modifies this
      ensures held == Held(old(held), events[..accepted]) && inserted == old(inserted) + events[..accepted]
      ensures ok <==> accepted == |events|
    {
      var count := SendInput(events, accepted);
      ok := count == |events|;
    }
  }

  /**
   * `key_combo` on Windows. Whatever prefix of the press batch lands, a fully accepted release
   * leaves no key of the combo held, duplicates included, and no other key changed; the result is
   * Ok exactly when both batches were accepted in full. When the release batch is cut short too,
   * the keys left held are exactly those down beforehand or pressed, and not yet released. What the
   * system is handed is the keys down in order, then the keys up in reverse.
   */
  method WindowsCombo(desktop: Desktop, keys: seq<Key>, p: nat, q: nat) returns (ok: bool)
    requires p <= |keys| && q <= |keys|
    modifies desktop
    ensures ok <==> p == |keys| && q == |keys|
    ensures q == |keys| ==> desktop.held == old(desktop.held) - (set k | k in keys)
    ensures forall k :: k in desktop.held <==>
              (k in old(desktop.held) || k in keys[..p]) && k !in keys[|keys| - q..]
    ensures |desktop.inserted| == |old(desktop.inserted)| + p + q && old(desktop.inserted) <= desktop.inserted
    ensures var n := |old(desktop.inserted)|;
            && (forall i :: n <= i < n + p ==> desktop.inserted[i] == KeyDown(keys[i - n]))
            && (forall i :: n + p <= i < n + p + q ==> desktop.inserted[i] == KeyUp(keys[|keys| - 1 - (i - n - p)]))
  {
    if keys == [] {
      return true;
    }
    var press := Downs(keys);
    var release := Ups(keys);
    var pressed := desktop.Send(press, p);
    ghost var mid := desktop.held;
    HeldAfterDowns(old(desktop.held), keys, p);
    var released := desktop.Send(release, q);
    HeldAfterUps(mid, keys, q);
    assert q == |keys| ==> keys[|keys| - q..] == keys;
    assert forall k :: k in keys[..p] ==> k in keys;
    return pressed && released;
  }
}
