/**
 * Webhook signature checking: the expected `X-Hub-Signature-256` value is
 * "sha256=" followed by the lower-case hex HMAC-SHA256 (RFC 2104 keyed hash)
 * of the raw body under the shared secret, and the received header is
 * compared with it by `hmac.compare_digest`.
 */
module Signature {
  import opened PyValue
  import Hex

  /**
   * HMAC-SHA256 keyed by the UTF-8 encoding of the secret, applied to the
   * body. The hash itself is not modelled: callers supply it.
   */
  type Mac = (string, seq<Byte>) -> seq<Byte>

  const Scheme: string := "sha256="

  predicate IsAscii(s: string) {
    forall i :: 0 <= i < |s| ==> s[i] as int < 128
  }

  /**
   * The signature a genuine sender puts in the header: all ASCII, and it
   * spells out exactly the MAC of the body after the scheme prefix.
   */
  function ExpectedSignature(mac: Mac, secret: string, body: seq<Byte>): (sig: string)
    ensures IsAscii(sig)
    ensures |sig| == |Scheme| + 2 * |mac(secret, body)|
    ensures sig[..|Scheme|] == Scheme
    ensures Hex.Unhex(sig[|Scheme|..]) == Some(mac(secret, body))
  {
    var digest := Hex.Hex(mac(secret, body));
    Hex.UnhexHex(mac(secret, body));
    assert (Scheme + digest)[|Scheme|..] == digest;
    Scheme + digest
  }

  /**
   * `hmac.compare_digest(a, b)` on two str values: a TypeError unless both
   * are ASCII, otherwise whether they are equal.
   */
  function CompareDigest(a: string, b: string): (r: Eval<bool>)
    ensures r.Raised? <==> !(IsAscii(a) && IsAscii(b))
    ensures r.Raised? ==> r.exc == TypeError
    ensures r.Ok? ==> (r.value <==> a == b)
  {
    if !IsAscii(a) || !IsAscii(b) then Raised(TypeError) else Ok(a == b)
  }

  /**
   * Against an expected signature, `compare_digest` raises only for a
   * non-ASCII header, and otherwise answers true exactly for the expected
   * value itself.
   */
  lemma CompareWithExpected(header: string, mac: Mac, secret: string, body: seq<Byte>)
    ensures var r := CompareDigest(header, ExpectedSignature(mac, secret, body));
      && (r.Raised? <==> !IsAscii(header))
      && (r.Ok? ==> (r.value <==> header == ExpectedSignature(mac, secret, body)))
  {
  }

  /**
   * One header value can be the expected signature of two bodies only if the
   * MAC of the two bodies is the same: changing the body in any way that
   * changes its MAC invalidates the old signature.
   */
  lemma SignatureBindsMac(mac: Mac, secret: string, body1: seq<Byte>, body2: seq<Byte>)
    ensures ExpectedSignature(mac, secret, body1) == ExpectedSignature(mac, secret, body2)
            <==> mac(secret, body1) == mac(secret, body2)
  {
  }
}
