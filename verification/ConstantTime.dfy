/** Bitwise operators on naturals, bit by bit from the lowest. */
module Bits {
  function Xor(x: nat, y: nat): (r: nat)
    ensures r == 0 <==> x == y
  {
    if x == 0 && y == 0 then 0
    else 2 * Xor(x / 2, y / 2) + (if x % 2 == y % 2 then 0 else 1)
  }

  function Or(x: nat, y: nat): (r: nat)
    ensures r == 0 <==> x == 0 && y == 0
  {
    if x == 0 && y == 0 then 0
    else 2 * Or(x / 2, y / 2) + (if x % 2 == 0 && y % 2 == 0 then 0 else 1)
  }

  /** Bytes are closed under both operators, so the fold never leaves a byte. */
  lemma {:induction false} FitsBits(x: nat, y: nat, bound: nat)
    requires x < Power(bound) && y < Power(bound)
    ensures Xor(x, y) < Power(bound) && Or(x, y) < Power(bound)
  {
    if bound > 0 { FitsBits(x / 2, y / 2, bound - 1); }
  }

  /** Bit `i`, counted from the lowest. */
  function Bit(x: nat, i: nat): nat {
    if i == 0 then x % 2 else Bit(x / 2, i - 1)
  }

  lemma {:induction false} ZeroBits(i: nat)
    ensures Bit(0, i) == 0
  {
    if i > 0 { ZeroBits(i - 1); }
  }

  /** Each bit of the results depends on that bit of the operands alone, as its truth table says. */
  lemma {:induction false} BitByBit(x: nat, y: nat, i: nat)
    ensures Bit(Xor(x, y), i) == (if Bit(x, i) == Bit(y, i) then 0 else 1)
    ensures Bit(Or(x, y), i) == (if Bit(x, i) == 0 && Bit(y, i) == 0 then 0 else 1)
    decreases i
  {
    if x == 0 && y == 0 {
      ZeroBits(i);
    } else if i > 0 {
      BitByBit(x / 2, y / 2, i - 1);
    }
  }

  function Power(n: nat): nat {
    if n == 0 then 1 else 2 * Power(n - 1)
  }
}

/** The comparison both the admin token and the pairing code go through. */
module ConstantTime {
  import opened Basics
  import opened Bits

  /** The fold of `acc | (x ^ y)` over the zipped bytes. */
  function Differences(a: seq<byte>, b: seq<byte>, acc: nat): nat
    requires |a| == |b|
  {
    if a == [] then acc
    else Differences(a[1..], b[1..], Or(acc, Xor(a[0] as nat, b[0] as nat)))
  }

  predicate ConstantTimeEq(a: seq<byte>, b: seq<byte>) {
    if |a| != |b| then false else Differences(a, b, 0) == 0
  }

  /** The accumulator is a byte throughout, as the source declares it. */
  lemma {:induction false} DifferencesStayBytes(a: seq<byte>, b: seq<byte>, acc: nat)
    requires |a| == |b| && acc < 256
    ensures Differences(a, b, acc) < 256
  {
    if a != [] {
      assert Power(8) == 256;
      FitsBits(a[0] as nat, b[0] as nat, 8);
      FitsBits(acc, Xor(a[0] as nat, b[0] as nat), 8);
      DifferencesStayBytes(a[1..], b[1..], Or(acc, Xor(a[0] as nat, b[0] as nat)));
    }
  }

  /** A bit once set in the accumulator is never cleared, and only equal bytes leave it clear. */
  lemma {:induction false} DifferencesZero(a: seq<byte>, b: seq<byte>, acc: nat)
    requires |a| == |b|
    ensures Differences(a, b, acc) == 0 <==> acc == 0 && a == b
  {
    if a != [] {
      DifferencesZero(a[1..], b[1..], Or(acc, Xor(a[0] as nat, b[0] as nat)));
      assert a == [a[0]] + a[1..] && b == [b[0]] + b[1..];
    }
  }

  lemma DecidesEquality(a: seq<byte>, b: seq<byte>)
    ensures ConstantTimeEq(a, b) <==> a == b
  {
    if |a| == |b| { DifferencesZero(a, b, 0); }
  }
}
