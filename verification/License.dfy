/** The licence check: its verdict, its cache entry and one undisturbed call. */
module License {
  import opened Wrappers

  /** What the signature check makes of each key: the expiry instant of a well-formed signed
      payload, None for any other key. */
  datatype World = World(expiry: string -> Option<real>)

  /** The verdict of a check made at instant `at`; the empty key is never licensed. */
  predicate Verdict(w: World, key: string, at: real) {
    key != "" && w.expiry(key).Some? && at <= w.expiry(key).value
  }

  /** How long a verdict may be served from the cache. */
  function Ttl(key: string): (r: real)
    ensures r == 60.0 || r == 300.0
  {
    if key == "" then 300.0 else 60.0
  }

  /** The shared dictionary. The stored hash is taken to name its key: SHA-256 as injective. */
  datatype Cache = Cache(valid: Option<bool>, expires: real, key: Option<string>)

  const EMPTY := Cache(None, 0.0, None)

  predicate Hit(c: Cache, now: real, key: string) { c.expires > now && c.key == Some(key) }

  function Entry(now: real, key: string, verdict: bool): (c: Cache) {
    Cache(Some(verdict), now + Ttl(key), Some(key))
  }

  /** One call that no other thread disturbs: `now` is its clock reading, `at` the instant
      of its check if it makes one. */
  function CallAlone(w: World, c: Cache, now: real, key: string, at: real): (r: (Cache, Option<bool>)) {
    if Hit(c, now, key) then (c, c.valid)
    else (Entry(now, key, Verdict(w, key, at)), Some(Verdict(w, key, at)))
  }

  /** The module's cache, updated field by field. */
  class LicenseCache {
    var valid: Option<bool>
    var expires: real
    var keyHash: Option<string>

    function View(): (c: Cache) reads this { Cache(valid, expires, keyHash) }

    constructor ()
      ensures View() == EMPTY
    {
      valid, expires, keyHash := None, 0.0, None;
    }

    method IsLicensed(w: World, now: real, key: string, at: real) returns (r: Option<bool>)
      modifies this
      ensures (View(), r) == CallAlone(w, old(View()), now, key, at)
    {
      if expires > now && keyHash == Some(key) {
        return valid;
      }
      if key == "" {
        valid := Some(false);
        expires := now + 300.0;
        keyHash := Some(key);
        return Some(false);
      }
      var isValid := Verdict(w, key, at);
      valid := Some(isValid);
      expires := now + 60.0;
      keyHash := Some(key);
      return Some(isValid);
    }
  }

  // ---- How often one key is checked ----

  /** The clock readings at which a sequence of calls with one key made a real check. */
  function Checks(w: World, c: Cache, key: string, calls: seq<(real, real)>): (r: seq<real>)
    decreases |calls|
  {
    if calls == [] then [] else
      var (now, at) := calls[0];
      (if Hit(c, now, key) then [] else [now]) + Checks(w, CallAlone(w, c, now, key, at).0, key, calls[1..])
  }

  ghost predicate Spaced(r: seq<real>, gap: real) { forall i :: 0 <= i < |r| - 1 ==> r[i + 1] >= r[i] + gap }

  /** A cached verdict holds off the next check until it lapses. */
  lemma {:induction false} ChecksSpaced(w: World, c: Cache, key: string, calls: seq<(real, real)>)
    ensures Spaced(Checks(w, c, key, calls), Ttl(key))
    ensures c.key == Some(key) && Checks(w, c, key, calls) != [] ==> Checks(w, c, key, calls)[0] >= c.expires
    decreases |calls|
  {
    if calls != [] {
      var (now, at) := calls[0];
      ChecksSpaced(w, CallAlone(w, c, now, key, at).0, key, calls[1..]);
    }
  }

  /** `k` checks of one key span at least 60 (k - 1) seconds, 300 (k - 1) for the empty key,
      whatever the cache held before the first call. */
  lemma {:induction false} ChecksSpan(w: World, c: Cache, key: string, calls: seq<(real, real)>)
    requires Checks(w, c, key, calls) != []
    ensures var r := Checks(w, c, key, calls);
            r[|r| - 1] - r[0] >= (if key == "" then 300.0 else 60.0) * (|r| - 1) as real
  {
    ChecksSpaced(w, c, key, calls);
    SpacedSpan(Checks(w, c, key, calls), Ttl(key));
  }

  lemma {:induction false} SpacedSpan(r: seq<real>, gap: real)
    requires r != [] && Spaced(r, gap)
    ensures r[|r| - 1] - r[0] >= gap * (|r| - 1) as real
  {
    if |r| > 1 {
      assert r[0 + 1] >= r[0] + gap;
      SpacedSpan(r[1..], gap);
      assert gap * (|r| - 1) as real == gap + gap * (|r| - 2) as real;
    }
  }
}
