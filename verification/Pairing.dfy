/** The pairing window and the proof of possession. */
module Pairing {
  import opened Basics
  import opened ConstantTime
  import opened Protocol
  import opened Signing

  /** Times are in milliseconds of the monotonic clock; `expiresAt` is wall-clock seconds, for the wire only. */
  datatype Window = Window(code: Text, openedAt: nat, ttlMs: nat, expiresAt: int)

  predicate IsOpen(w: Window, now: nat) {
    now - w.openedAt < w.ttlMs
  }

  function OpenWindow(code: Text, ttl: Option<nat>, now: nat, unixNow: int): Window {
    var seconds := match ttl case Some(s) => s case None => DEFAULT_TTL_SECONDS;
    Window(code, now, seconds * 1000, unixNow + seconds)
  }

  /** A base64 field that must decode to exactly `n` bytes. */
  function DecodeFixed(crypto: Crypto, value: Text, n: nat): Result<seq<byte>, Error> {
    match crypto.decode64(value)
    case None => Err(Wire(BadRequest))
    case Some(bytes) => if |bytes| == n then Ok(bytes) else Err(Wire(BadRequest))
  }

  function VerifyPairRequest(crypto: Crypto, window: Option<Window>, now: nat, r: PairRequestBody)
    : Result<seq<byte>, Error>
  {
    if window.None? || !IsOpen(window.value, now) then Err(Wire(PairingClosed))
    else if !ConstantTimeEq(window.value.code, r.code) then Err(Wire(BadCode))
    else
      match DecodeFixed(crypto, r.devicePubkey, PUBKEY_LEN)
      case Err(e) => Err(e)
      case Ok(key) =>
        match DecodeFixed(crypto, r.proof, SIGNATURE_LEN)
        case Err(e) => Err(e)
        case Ok(proof) =>
          if !crypto.validPoint(key) then Err(Wire(BadRequest))
          else if !crypto.verifyStrict(key, PairProofMessage(r.code, key), proof) then Err(Wire(BadSignature))
          else Ok(key)
  }

  /** What a verified request proved, in terms of the window rather than of the request. */
  ghost predicate Proved(crypto: Crypto, window: Option<Window>, now: nat, r: PairRequestBody, key: seq<byte>) {
    && window.Some? && now < window.value.openedAt + window.value.ttlMs
    && r.code == window.value.code
    && |key| == PUBKEY_LEN && crypto.validPoint(key)
    && crypto.decode64(r.devicePubkey) == Some(key)
    && (exists proof ::
          && crypto.decode64(r.proof) == Some(proof)
          && |proof| == SIGNATURE_LEN
          && crypto.verifyStrict(key, PairProofMessage(window.value.code, key), proof))
  }

  /** A request is let through with a key exactly when it proved possession of it under the open window's code. */
  lemma VerifiedMeansProved(crypto: Crypto, window: Option<Window>, now: nat, r: PairRequestBody, key: seq<byte>)
    ensures VerifyPairRequest(crypto, window, now, r) == Ok(key) <==> Proved(crypto, window, now, r, key)
  {
    if window.Some? {
      DecidesEquality(window.value.code, r.code);
    }
  }

  /** `verify_pair_request`: each check in turn, the message through its builder. */
  method CheckPairRequest(crypto: Crypto, window: Option<Window>, now: nat, r: PairRequestBody)
    returns (verdict: Result<seq<byte>, Error>)
    ensures verdict == VerifyPairRequest(crypto, window, now, r)
  {
    if window.None? || !IsOpen(window.value, now) {
      return Err(Wire(PairingClosed));
    }
    if !ConstantTimeEq(window.value.code, r.code) {
      return Err(Wire(BadCode));
    }
    var key := DecodeFixed(crypto, r.devicePubkey, PUBKEY_LEN);
    if key.Err? {
      return Err(key.error);
    }
    var proof := DecodeFixed(crypto, r.proof, SIGNATURE_LEN);
    if proof.Err? {
      return Err(proof.error);
    }
    if !crypto.validPoint(key.value) {
      return Err(Wire(BadRequest));
    }
    var message := BuildPairProofMessage(r.code, key.value);
    if !crypto.verifyStrict(key.value, message, proof.value) {
      return Err(Wire(BadSignature));
    }
    return Ok(key.value);
  }

  /** Every refusal, in the order of the checks: a closed window hides whether the code was right. */
  lemma PairRefusals(crypto: Crypto, window: Option<Window>, now: nat, r: PairRequestBody)
    ensures var v := VerifyPairRequest(crypto, window, now, r);
            var key, proof := crypto.decode64(r.devicePubkey), crypto.decode64(r.proof);
            if window.None? || now >= window.value.openedAt + window.value.ttlMs then v == Err(Wire(PairingClosed))
            else if r.code != window.value.code then v == Err(Wire(BadCode))
            else if key.None? || |key.value| != 32 || proof.None? || |proof.value| != 64
                    || !crypto.validPoint(key.value)
            then v == Err(Wire(BadRequest))
            else
              v == if crypto.verifyStrict(key.value, Ascii("muxdeck-pair-v1") + r.code + key.value, proof.value)
                   then Ok(key.value) else Err(Wire(BadSignature))
  {
    DomainsSpelled();
    if window.Some? {
      DecidesEquality(window.value.code, r.code);
    }
  }
}
