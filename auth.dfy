/**
 * The bearer check shared by both endpoints. A key counts as configured when
 * it is present and non-empty (Python truthiness); the header must then be
 * exactly "Bearer " followed by the key, compared as a whole string.
 */
module Auth {
  import opened Wrappers

  predicate KeyConfigured(apiKey: Option<string>)
  {
    apiKey.Some? && apiKey.value != ""
  }

  /** The one header value accepted for a configured key. */
  function BearerFor(key: string): (h: string)
    ensures |h| == |key| + 7 && h[7..] == key
  {
    "Bearer " + key
  }

  /**
   * With a configured key, the header must equal "Bearer " followed by the
   * key; a missing or empty header is refused. Without a key, everything passes.
   */
  function Authorized(apiKey: Option<string>, header: Option<string>): (ok: bool)
    ensures ok <==> !KeyConfigured(apiKey) || header == Some(BearerFor(apiKey.value))
  {
    if KeyConfigured(apiKey) then
      !(header.None? || header.value == "" || header.value != BearerFor(apiKey.value))
    else
      true
  }

  /** Without a configured key every request passes, whatever header it carries. */
  lemma OpenAccess(apiKey: Option<string>, header: Option<string>)
    requires !KeyConfigured(apiKey)
    ensures Authorized(apiKey, header)
  {
  }

  /** With a configured key exactly one header value passes, and a missing header never does. */
  lemma ExactlyOneBearer(key: string, header: string)
    requires key != ""
    ensures Authorized(Some(key), Some(header)) <==> header == BearerFor(key)
    ensures !Authorized(Some(key), None)
  {
  }

  /**
   * The scheme name is compared case-sensitively: a lower-case "bearer"
   * is refused although the scheme name is case-insensitive in RFC 6750.
   */
  lemma SchemeIsCaseSensitive(key: string)
    requires key != ""
    ensures !Authorized(Some(key), Some("bearer " + key))
  {
    assert ("bearer " + key)[0] != BearerFor(key)[0];
  }
}
