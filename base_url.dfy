/**
 * Base URL normalisation, `rtrim($url, '/') . '/'`, which both clients apply
 * once in their constructors, and what it guarantees about the URLs built
 * by appending an endpoint path to the result.
 */
module BaseUrl {
  import Php

  /** Ends in a `/` that is not preceded by another `/`. */
  predicate IsNormalized(b: string) {
    |b| >= 1 && b[|b| - 1] == '/' && (|b| == 1 || b[|b| - 2] != '/')
  }

  /**
   * The URL with every trailing `/` removed and exactly one put back. The
   * result without its final `/` is a prefix of the input, and what the
   * input has beyond that prefix is all `/`.
   */
  function Normalize(url: string): (r: string)
    ensures IsNormalized(r)
    ensures r[..|r| - 1] <= url
    ensures forall i :: |r| - 1 <= i < |url| ==> url[i] == '/'
  {
    var trimmed := Php.RTrim(url, '/');
    assert (trimmed + "/")[..|trimmed|] == trimmed;
    trimmed + "/"
  }

  /** A URL that does not end in `/` just gains one. */
  lemma NormalizeAppendsOne(url: string)
    requires url == [] || url[|url| - 1] != '/'
    ensures Normalize(url) == url + "/"
  {
  }

  /** However many `/` follow a URL, normalisation gives the same result. */
  lemma NormalizeIgnoresTrailingSeparators(url: string, n: nat)
    ensures Normalize(url + seq(n, _ => '/')) == Normalize(url)
  {
    var padded := url + seq(n, _ => '/');
    var trimmed := Php.RTrim(url, '/');
    assert padded[..|url|] == url;
    Php.RTrimCharacterised(padded, '/', trimmed);
  }

  /** An empty or all-`/` URL normalises to `"/"`. */
  lemma NormalizeAllSeparators(url: string)
    requires forall i :: 0 <= i < |url| ==> url[i] == '/'
    ensures Normalize(url) == "/"
  {
  }

  /** The normalised URLs are exactly the ones normalisation leaves unchanged. */
  lemma NormalizeFixesExactlyNormalized(b: string)
    ensures Normalize(b) == b <==> IsNormalized(b)
  {
  }

  /** Normalising twice is normalising once. */
  lemma NormalizeIdempotent(url: string)
    ensures Normalize(Normalize(url)) == Normalize(url)
  {
  }

  /**
   * `url` continues `base`, the character at the end of `base` is a `/`, and
   * neither its neighbour before nor its neighbour after is another `/`:
   * no `//` straddles the junction.
   */
  predicate JoinedCleanly(base: string, url: string) {
    && |base| >= 1
    && base <= url
    && url[|base| - 1] == '/'
    && (|base| >= 2 ==> url[|base| - 2] != '/')
    && (|url| > |base| ==> url[|base|] != '/')
  }

  /** A normalised base followed by a path that does not start with `/` joins cleanly. */
  lemma JoinIsClean(base: string, path: string)
    requires IsNormalized(base)
    requires path == [] || path[0] != '/'
    ensures JoinedCleanly(base, base + path)
  {
  }
}
