/**
 * `authenticated`: a webhook is genuine when its X-LD-Signature header is the
 * hexadecimal HMAC-SHA256 of the raw body under the shared secret.
 */
module Signature {
  import opened Wrappers
  import opened Hex

  /** An HMAC-SHA256 tag: 32 bytes. */
  type Digest = d: seq<byte> | |d| == 32 witness seq(32, _ => 0)

  /**
   * HMAC-SHA256 as a function of key and message. The model leaves it
   * abstract: every property below holds for whatever function this is.
   */
  type Mac = (seq<byte>, seq<byte>) -> Digest

  /**
   * `authenticated(request, secret)`: `signature` is the value of the
   * X-LD-Signature header, if there is one, and `body` the raw request body.
   * A missing header or one that is not hexadecimal fails closed; otherwise
   * the decoded bytes must equal the HMAC of the body under the secret
   * (a `MacResult` comparison, equal only when lengths and all bytes agree).
   */
  function Authenticated(hmac: Mac, signature: Option<seq<byte>>, body: seq<byte>, secret: seq<byte>): (ok: bool)
    ensures signature.None? ==> !ok
    ensures signature.Some? && FromHex(signature.value).None? ==> !ok
    ensures ok <==> signature.Some? && FromHex(signature.value) == Some(hmac(secret, body))
  {
    match signature
    case None => false
    case Some(header) =>
      match FromHex(header)
      case None => false
      case Some(claimed) => claimed == hmac(secret, body)
  }

  /** A claimed signature of any length other than a digest's never authenticates. */
  lemma WrongLengthFails(hmac: Mac, header: seq<byte>, body: seq<byte>, secret: seq<byte>)
    requires FromHex(header).Some? && |FromHex(header).value| != 32
    ensures !Authenticated(hmac, Some(header), body, secret)
  {
  }

  /** Signing the body with the secret, as the sender does with `hex::encode`, always authenticates. */
  lemma SignedBodyAuthenticates(hmac: Mac, body: seq<byte>, secret: seq<byte>)
    ensures Authenticated(hmac, Some(ToHex(hmac(secret, body))), body, secret)
  {
  }

  /**
   * A body signed under one key is accepted under another exactly when the
   * two keys give the body the same digest.
   */
  lemma OtherKeyAuthenticates(hmac: Mac, body: seq<byte>, signer: seq<byte>, secret: seq<byte>)
    ensures Authenticated(hmac, Some(ToHex(hmac(signer, body))), body, secret)
      <==> hmac(signer, body) == hmac(secret, body)
  {
  }

  /**
   * A header written in lower-case digits authenticates exactly when it is
   * the text `hex::encode` writes for the body's digest.
   */
  lemma LowerCaseSignatureIsEncoding(hmac: Mac, header: seq<byte>, body: seq<byte>, secret: seq<byte>)
    requires forall i :: 0 <= i < |header| ==> IsLowerHexDigit(header[i])
    ensures Authenticated(hmac, Some(header), body, secret) <==> header == ToHex(hmac(secret, body))
  {
    if header == ToHex(hmac(secret, body)) {
      SignedBodyAuthenticates(hmac, body, secret);
    }
    if Authenticated(hmac, Some(header), body, secret) {
      ToHexFromHex(header);
    }
  }
}
