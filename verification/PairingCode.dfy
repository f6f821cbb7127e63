/** The six-digit pairing code: exactly uniform. */
module PairingCode {
  import opened Basics

  const U32_MAX: nat := 0xFFFF_FFFF
  const LIMIT: nat := 1_000_000

  /** The largest raw value that is not rejected. */
  const CUTOFF: nat := U32_MAX - (U32_MAX % LIMIT) - 1

  /** `u32::from_le_bytes`. */
  function FromLeBytes(b: seq<byte>): (v: nat)
    requires |b| == 4
    ensures v <= U32_MAX
  {
    b[0] as nat + 0x100 * b[1] as nat + 0x1_0000 * b[2] as nat + 0x100_0000 * b[3] as nat
  }

  function ToLeBytes(v: nat): (b: seq<byte>)
    requires v <= U32_MAX
    ensures |b| == 4
  {
    [(v % 0x100) as byte, (v / 0x100 % 0x100) as byte, (v / 0x1_0000 % 0x100) as byte, (v / 0x100_0000) as byte]
  }

  lemma LowByte(low: int, high: int)
    requires 0 <= low < 0x100
    ensures (low + 0x100 * high) % 0x100 == low && (low + 0x100 * high) / 0x100 == high
  {}

  /** Dividing by 256 byte after byte. */
  lemma HighBytes(v: nat)
    ensures v / 0x1_0000 == v / 0x100 / 0x100 && v / 0x100_0000 == v / 0x100 / 0x100 / 0x100
  {}

  lemma ReadsBack(v: nat)
    requires v <= U32_MAX
    ensures FromLeBytes(ToLeBytes(v)) == v
  {
    HighBytes(v);
    var v1 := v / 0x100;
    var v2 := v1 / 0x100;
    assert v == v % 0x100 + 0x100 * v1 && v1 == v1 % 0x100 + 0x100 * v2 && v2 == v2 % 0x100 + 0x100 * (v2 / 0x100);
  }

  lemma WritesBack(b: seq<byte>)
    requires |b| == 4
    ensures ToLeBytes(FromLeBytes(b)) == b
  {
    var v2 := b[2] as int + 0x100 * b[3] as int;
    var v1 := b[1] as int + 0x100 * v2;
    HighBytes(FromLeBytes(b));
    assert FromLeBytes(b) == b[0] as int + 0x100 * v1;
    LowByte(b[0] as int, v1);
    LowByte(b[1] as int, v2);
    LowByte(b[2] as int, b[3] as int);
  }

  /** Four entropy bytes and one raw value correspond one to one, so uniform bytes are a uniform value. */
  lemma BytesAreUniform(b: seq<byte>, v: nat)
    requires |b| == 4 && v <= U32_MAX
    ensures FromLeBytes(b) == v <==> b == ToLeBytes(v)
  {
    WritesBack(b);
    ReadsBack(v);
  }

  function Digit(n: nat): byte {
    (48 + n % 10) as byte
  }

  /** `{:06}` of a number below a million. */
  function SixDigits(n: nat): (t: Text)
    ensures |t| == 6
    ensures forall i :: 0 <= i < 6 ==> 48 <= t[i] <= 57
  {
    [Digit(n / 100_000), Digit(n / 10_000), Digit(n / 1_000), Digit(n / 100), Digit(n / 10), Digit(n)]
  }

  function Read(t: Text): int
    requires |t| == 6
  {
    100_000 * (t[0] as int - 48) + 10_000 * (t[1] as int - 48) + 1_000 * (t[2] as int - 48)
    + 100 * (t[3] as int - 48) + 10 * (t[4] as int - 48) + (t[5] as int - 48)
  }

  /** Reading the rendering gives the number back, so no two codes render alike. */
  lemma SixDigitsRoundTrip(n: nat)
    requires n < LIMIT
    ensures Read(SixDigits(n)) == n
  {
    assert n / 10_000 / 10 == n / 100_000;
    assert n / 1_000 / 10 == n / 10_000;
    assert n / 100 / 10 == n / 1_000;
    assert n / 10 / 10 == n / 100;
  }

  /** The accepted raw values below `blocks` millions that give this code. */
  function Preimages(code: nat, blocks: nat): set<nat> {
    set v: nat | v < blocks * LIMIT && v % LIMIT == code
  }

  lemma {:induction false} OnePerBlock(code: nat, blocks: nat)
    requires code < LIMIT
    ensures |Preimages(code, blocks)| == blocks
  {
    if blocks > 0 {
      OnePerBlock(code, blocks - 1);
      var v := (blocks - 1) * LIMIT + code;
      assert v % LIMIT == code;
      forall u: nat | u < blocks * LIMIT && u % LIMIT == code && u >= (blocks - 1) * LIMIT ensures u == v {}
      assert Preimages(code, blocks) == Preimages(code, blocks - 1) + {v};
    }
  }

  /** The raw values up to `cutoff` that give this code. */
  function Accepted(code: nat, cutoff: nat): set<nat> {
    set v: nat | v <= cutoff && v % LIMIT == code
  }

  /**
   * Exactly uniform: every code has exactly 4294 accepted raw values, and fewer than a million of
   * the 2^32 raw values are rejected.
   */
  lemma ExactlyUniform(code: nat)
    requires code < LIMIT
    ensures |Accepted(code, CUTOFF)| == 4294
    ensures U32_MAX - CUTOFF < LIMIT
  {
    OnePerBlock(code, 4294);
    assert Accepted(code, CUTOFF) == Preimages(code, 4294);
  }

  /** Accept any more raw values and code 000000 comes up more often than 999999. */
  lemma CutoffIsLargest(cutoff: nat)
    requires CUTOFF < cutoff <= U32_MAX
    ensures |Accepted(0, cutoff)| == 4295 && |Accepted(LIMIT - 1, cutoff)| == 4294
  {
    OnePerBlock(0, 4294);
    OnePerBlock(LIMIT - 1, 4294);
    assert Accepted(0, cutoff) == Preimages(0, 4294) + {CUTOFF + 1};
    assert Accepted(LIMIT - 1, cutoff) == Preimages(LIMIT - 1, 4294);
  }

  /**
   * The rejection loop over the draws the system hands out; a failing entropy source ends it. The
   * code is the first accepted draw's, and `None` means every draw so far was rejected.
   */
  method GenerateOtp(draws: seq<Option<seq<byte>>>) returns (r: Option<Result<Text, Error>>, used: nat)
    requires forall i :: 0 <= i < |draws| && draws[i].Some? ==> |draws[i].value| == 4
    ensures used <= |draws|
    ensures forall i :: 0 <= i < used ==> draws[i].Some? && FromLeBytes(draws[i].value) > CUTOFF
    ensures r.None? <==> used == |draws|
    ensures used < |draws| && draws[used].None? ==> r == Some(Err(Fault))
    ensures used < |draws| && draws[used].Some? ==>
              && FromLeBytes(draws[used].value) <= CUTOFF
              && r == Some(Ok(SixDigits(FromLeBytes(draws[used].value) % LIMIT)))
  {
    used := 0;
    while used < |draws|
      invariant used <= |draws|
      invariant forall i :: 0 <= i < used ==> draws[i].Some? && FromLeBytes(draws[i].value) > CUTOFF
    {
      if draws[used].None? {
        return Some(Err(Fault)), used;
      }
      var value := FromLeBytes(draws[used].value);
      if value <= CUTOFF {
        return Some(Ok(SixDigits(value % LIMIT))), used;
      }
      used := used + 1;
    }
    return None, used;
  }
}
