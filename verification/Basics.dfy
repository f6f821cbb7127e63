/** Types shared by the whole model. */
module Basics {

  newtype byte = x: int | 0 <= x < 256

  /** A Rust `String` is its UTF-8 bytes, so text is modelled by those bytes. */
  type Text = seq<byte>

  type Nonce = n: seq<byte> | |n| == 32 witness seq(32, _ => 0)
  type Digest = d: seq<byte> | |d| == 32 witness seq(32, _ => 0)

  datatype Option<+T> = None | Some(value: T)
  datatype Result<+T, +E> = Ok(value: T) | Err(error: E)

  datatype ErrorCode =
    | BadRequest
    | UnsupportedVersion
    | UnknownOp
    | NotAuthenticated
    | NotAuthorized
    | PairingClosed
    | BadCode
    | UnknownDevice
    | BadSignature
    | InjectionFailed
    | NotFound
    | Disabled
    | InternalError

  /** `Wire` is sent to the client as it is; every other engine error is sent as `INTERNAL`. */
  datatype Error = Wire(code: ErrorCode) | Fault
  {
    function Code(): ErrorCode {
      match this
      case Wire(code) => code
      case Fault => InternalError
    }
  }

  /** The bytes of an ASCII literal. */
  function Ascii(s: string): (t: Text)
    ensures |t| == |s|
  {
    seq(|s|, i requires 0 <= i < |s| => if s[i] < 128 as char then s[i] as byte else 63)
  }

  /**
   * Cryptography and base64, left uninterpreted: every theorem that mentions a `Crypto` holds for
   * all choices of these functions. `verifyStrict` takes key, message and signature.
   */
  datatype Crypto = Crypto(
    encode64: seq<byte> -> Text,
    decode64: Text -> Option<seq<byte>>,
    sha256: seq<byte> -> Digest,
    validPoint: seq<byte> -> bool,
    verifyStrict: (seq<byte>, seq<byte>, seq<byte>) -> bool)
  {
    /** Section 4 of RFC 4648: decoding undoes encoding. */
    ghost predicate RoundTrips() {
      forall b :: decode64(encode64(b)) == Some(b)
    }
  }

  /** Everything that identifies this host. */
  datatype Host = Host(hostId: Text, adminToken: Text, crypto: Crypto)
}

/** The order of a `BTreeMap<String, _>`: lexicographic on bytes. */
module Ordered {
  import opened Basics

  predicate LexLeq(a: Text, b: Text) {
    if a == [] then true
    else if b == [] then false
    else if a[0] != b[0] then a[0] < b[0]
    else LexLeq(a[1..], b[1..])
  }

  lemma {:induction false} LexTotal(a: Text, b: Text)
    ensures LexLeq(a, b) || LexLeq(b, a)
  {
    if a != [] && b != [] && a[0] == b[0] {
      LexTotal(a[1..], b[1..]);
    }
  }

  lemma {:induction false} LexAntisymmetric(a: Text, b: Text)
    requires LexLeq(a, b) && LexLeq(b, a)
    ensures a == b
  {
    if a != [] && b != [] {
      LexAntisymmetric(a[1..], b[1..]);
      assert a == [a[0]] + a[1..] && b == [b[0]] + b[1..];
    }
  }

  lemma {:induction false} LexTransitive(a: Text, b: Text, c: Text)
    requires LexLeq(a, b) && LexLeq(b, c)
    ensures LexLeq(a, c)
  {
    if a != [] && b != [] && c != [] && a[0] == b[0] == c[0] {
      LexTransitive(a[1..], b[1..], c[1..]);
    }
  }

  predicate IsFirst(k: Text, keys: set<Text>) {
    k in keys && forall j :: j in keys ==> LexLeq(k, j)
  }

  lemma {:induction false} FirstExists(keys: set<Text>) returns (k: Text)
    requires keys != {}
    ensures IsFirst(k, keys)
    decreases keys
  {
    var x :| x in keys;
    LexTotal(x, x);
    if keys == {x} {
      k := x;
    } else {
      assert keys - {x} != {};
      var m := FirstExists(keys - {x});
      LexTotal(x, m);
      k := if LexLeq(x, m) then x else m;
      forall j | j in keys ensures LexLeq(k, j) {
        if j != x {
          assert LexLeq(m, j);
          if k == x { LexTransitive(x, m, j); }
        }
      }
    }
  }

  /** `keys().next()` of a non-empty `BTreeMap`. */
  function FirstKey(keys: set<Text>): (k: Text)
    requires keys != {}
    ensures IsFirst(k, keys)
  {
    assert exists k :: IsFirst(k, keys) by { var k := FirstExists(keys); }
    assert forall j, k :: IsFirst(j, keys) && IsFirst(k, keys) ==> j == k by {
      forall j, k | IsFirst(j, keys) && IsFirst(k, keys) ensures j == k { LexAntisymmetric(j, k); }
    }
    var k :| k in keys && IsFirst(k, keys);
    k
  }

  /** The keys in iteration order: each of them exactly once, ascending. */
  function SortedKeys(keys: set<Text>): (ks: seq<Text>)
    ensures forall k :: k in ks <==> k in keys
    ensures forall i, j :: 0 <= i < j < |ks| ==> ks[i] != ks[j] && LexLeq(ks[i], ks[j])
    decreases keys
  {
    if keys == {} then []
    else
      var k := FirstKey(keys);
      [k] + SortedKeys(keys - {k})
  }
}
