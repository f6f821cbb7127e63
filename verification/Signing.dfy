/** The exact bytes that get signed. */
module Signing {
  import opened Basics

  /** `muxdeck-session-v1` */
  const SESSION_DOMAIN: seq<byte> :=
    [109, 117, 120, 100, 101, 99, 107, 45, 115, 101, 115, 115, 105, 111, 110, 45, 118, 49]

  /** `muxdeck-pair-v1` */
  const PAIR_DOMAIN: seq<byte> :=
    [109, 117, 120, 100, 101, 99, 107, 45, 112, 97, 105, 114, 45, 118, 49]

  const PUBKEY_LEN: nat := 32
  const SIGNATURE_LEN: nat := 64

  function SessionAuthMessage(nonce: seq<byte>, deviceId: Text, hostId: Text): seq<byte> {
    SESSION_DOMAIN + nonce + deviceId + hostId
  }

  function PairProofMessage(code: Text, devicePubkey: seq<byte>): seq<byte> {
    PAIR_DOMAIN + code + devicePubkey
  }

  /** The builder as the source writes it: one buffer, extended four times. */
  method BuildSessionAuthMessage(nonce: seq<byte>, deviceId: Text, hostId: Text) returns (buf: seq<byte>)
    ensures buf == SessionAuthMessage(nonce, deviceId, hostId)
  {
    buf := [];
    buf := buf + SESSION_DOMAIN;
    buf := buf + nonce;
    buf := buf + deviceId;
    buf := buf + hostId;
  }

  method BuildPairProofMessage(code: Text, devicePubkey: seq<byte>) returns (buf: seq<byte>)
    ensures buf == PairProofMessage(code, devicePubkey)
  {
    buf := [];
    buf := buf + PAIR_DOMAIN;
    buf := buf + code;
    buf := buf + devicePubkey;
  }

  /** The constants are the documented names. */
  lemma DomainsSpelled()
    ensures SESSION_DOMAIN == Ascii("muxdeck-session-v1") && PAIR_DOMAIN == Ascii("muxdeck-pair-v1")
  {}

  /** Field by field, at the documented offsets. */
  lemma SessionMessageLayout(nonce: Nonce, deviceId: Text, hostId: Text)
    ensures var m := SessionAuthMessage(nonce, deviceId, hostId);
            && |m| == 50 + |deviceId| + |hostId|
            && m[..18] == Ascii("muxdeck-session-v1") && m[18..50] == nonce
            && m[50..50 + |deviceId|] == deviceId && m[50 + |deviceId|..] == hostId
  {
    DomainsSpelled();
  }

  /**
   * Two session messages built by hosts with ids of one length agree only when nonce, device and
   * host all agree, although nothing separates the fields.
   */
  lemma SessionMessageInjective(n1: Nonce, d1: Text, h1: Text, n2: Nonce, d2: Text, h2: Text)
    requires |h1| == |h2|
    requires SessionAuthMessage(n1, d1, h1) == SessionAuthMessage(n2, d2, h2)
    ensures n1 == n2 && d1 == d2 && h1 == h2
  {
    var m1, m2 := SessionAuthMessage(n1, d1, h1), SessionAuthMessage(n2, d2, h2);
    assert |m1| == 50 + |d1| + |h1| && |m2| == 50 + |d2| + |h2|;
    assert m1[18..50] == n1 && m2[18..50] == n2;
    assert m1[50..50 + |d1|] == d1 && m2[50..50 + |d2|] == d2;
    assert m1[50 + |d1|..] == h1 && m2[50 + |d2|..] == h2;
  }

  /** A pairing code and key are recovered from the proof message, whatever the code's length. */
  lemma PairMessageInjective(c1: Text, k1: seq<byte>, c2: Text, k2: seq<byte>)
    requires |k1| == |k2| == PUBKEY_LEN
    requires PairProofMessage(c1, k1) == PairProofMessage(c2, k2)
    ensures c1 == c2 && k1 == k2
  {
    var m1, m2 := PairProofMessage(c1, k1), PairProofMessage(c2, k2);
    assert |m1| == 47 + |c1| && |m2| == 47 + |c2|;
    assert m1[15..15 + |c1|] == c1 && m2[15..15 + |c2|] == c2;
    assert m1[15 + |c1|..] == k1 && m2[15 + |c2|..] == k2;
  }

  /** Domain separation: no signature over one kind of message is a signature over the other. */
  lemma DomainsNeverMeet(nonce: seq<byte>, deviceId: Text, hostId: Text, code: Text, key: seq<byte>)
    ensures SessionAuthMessage(nonce, deviceId, hostId) != PairProofMessage(code, key)
  {
    assert SessionAuthMessage(nonce, deviceId, hostId)[8] == SESSION_DOMAIN[8] == 115;
    assert PairProofMessage(code, key)[8] == PAIR_DOMAIN[8] == 112;
  }
}
