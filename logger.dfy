/**
 * src/services/Logger.js, `sanitizeParams`: the shallow redaction applied
 * to request parameters before they are logged. Writing the log line and
 * the log row is not part of this model.
 */
module Logging {
  import opened Js

  /** The top-level keys whose truthy values are redacted, in the order they are visited. */
  const SensitiveKeys: seq<string> := ["apiKey", "secretKey", "password", "token", "credentials"]

  const Redacted := "***REDACTED***"

  /** `params` with the truthy values under `keys` replaced by the redaction marker. */
  function RedactedUnder(params: Record, keys: seq<string>): (r: Record)
    ensures r.Keys == params.Keys
  {
    map k | k in params :: if k in keys && Truthy(params[k]) then Str(Redacted) else params[k]
  }

  /** The parameters as they are logged. */
  function Sanitized(params: Record): (r: Record)
    ensures r.Keys == params.Keys
  {
    RedactedUnder(params, SensitiveKeys)
  }

  /**
   * `sanitizeParams(params)`: a shallow copy, then one pass over the
   * sensitive keys overwriting each truthy value. The caller's object is
   * never written.
   */
  method SanitizeParams(params: Js) returns (sanitized: Record)
    ensures sanitized == Sanitized(Fields(params))
  {
    sanitized := Fields(params);
    var i := 0;
    while i < |SensitiveKeys|
      invariant 0 <= i <= |SensitiveKeys|
      invariant sanitized == RedactedUnder(Fields(params), SensitiveKeys[..i])
    {
      var key := SensitiveKeys[i];
      assert key !in SensitiveKeys[..i];
      if Truthy(Get(sanitized, key)) {
        sanitized := sanitized[key := Str(Redacted)];
      }
      assert SensitiveKeys[..i + 1] == SensitiveKeys[..i] + [key];
      i := i + 1;
    }
    assert SensitiveKeys[..i] == SensitiveKeys;
  }

  /**
   * What the log shows: every key of the input and no other; a sensitive
   * key with a truthy value shows the marker; every other value, nested
   * objects included, shows unchanged.
   */
  lemma SanitizedShows(params: Record, k: string)
    requires k in params
    ensures k in Sanitized(params)
    ensures k in SensitiveKeys && Truthy(params[k]) ==> Sanitized(params)[k] == Str(Redacted)
    ensures !(k in SensitiveKeys && Truthy(params[k])) ==> Sanitized(params)[k] == params[k]
  {
  }

  /** Sanitising a sanitised map changes nothing. */
  lemma SanitizeIdempotent(params: Record)
    ensures Sanitized(Sanitized(params)) == Sanitized(params)
  {
    var once := Sanitized(params);
    forall k | k in once
      ensures Sanitized(once)[k] == once[k]
    {
      if k in SensitiveKeys && Truthy(params[k]) {
        assert Truthy(once[k]);
      }
    }
  }

  /**
   * The log reveals nothing of a sensitive value but whether it is truthy:
   * two parameter maps that agree on every other key, and on the truthiness
   * of the sensitive ones, are logged identically.
   */
  lemma SecretsDoNotReachTheLog(p: Record, q: Record)
    requires p.Keys == q.Keys
    requires forall k :: k in p && k !in SensitiveKeys ==> p[k] == q[k]
    requires forall k :: k in p && k in SensitiveKeys ==> Truthy(p[k]) == Truthy(q[k])
    requires forall k :: k in p && k in SensitiveKeys && !Truthy(p[k]) ==> p[k] == q[k]
    ensures Sanitized(p) == Sanitized(q)
  {
    forall k | k in p
      ensures Sanitized(p)[k] == Sanitized(q)[k]
    {
    }
  }

  /** Redaction is shallow: a password nested under `vm` is logged as given. */
  lemma NestedSecretsAreKept(params: Record)
    requires "vm" in params && params["vm"].Obj?
    ensures Sanitized(params)["vm"] == params["vm"]
  {
  }
}
