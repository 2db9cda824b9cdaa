/**
 * Cache-key derivation: the key is the MD5 hex digest of the string
 * `f"{text}_{max_length}"`. MD5 itself is a parameter (`md5`); what is proved
 * here is that the string it is applied to determines `(text, max_length)`.
 */
module CacheKey {
  import opened Wrappers
  import opened Text

  /** The string that is hashed: the text, an underscore, then `str(max_length)`. */
  function Preimage(text: string, maxLength: int): (r: string)
    ensures |r| > |text| + 1 && r[..|text|] == text && r[|text|] == '_'
    ensures '_' !in r[|text| + 1..]
  {
    text + "_" + IntToDecimal(maxLength)
  }

  /** `generate_cache_key`: the digest of the preimage under the given hash. */
  function GenerateCacheKey(md5: string -> string, text: string, maxLength: int): string {
    md5(Preimage(text, maxLength))
  }

  /** Index of the last occurrence of `c` in `s`. */
  function LastIndexOf(s: string, c: char): (r: Option<nat>)
    ensures r.Some? ==> r.value < |s| && s[r.value] == c
  {
    if s == [] then None
    else if s[|s| - 1] == c then Some(|s| - 1)
    else LastIndexOf(s[..|s| - 1], c)
  }

  /** Reads a preimage back: split at the last underscore and parse the number after it. */
  function SplitPreimage(p: string): Option<(string, int)> {
    match LastIndexOf(p, '_')
    case None => None
    case Some(i) =>
      match ParseInt(p[i + 1..])
      case None => None
      case Some(n) => Some((p[..i], n))
  }

  lemma {:induction false} LastIndexOfAfter(p: string, c: char, d: string)
    requires c !in d
    ensures LastIndexOf(p + [c] + d, c) == Some(|p|)
  {
    if d != [] {
      var s := p + [c] + d;
      assert s[|s| - 1] == d[|d| - 1];
      assert s[..|s| - 1] == p + [c] + d[..|d| - 1];
      LastIndexOfAfter(p, c, d[..|d| - 1]);
    }
  }

  /** The preimage can be split back into the text and the number it was built from. */
  lemma SplitPreimageRoundTrip(text: string, maxLength: int)
    ensures SplitPreimage(Preimage(text, maxLength)) == Some((text, maxLength))
  {
    var p := Preimage(text, maxLength);
    var digits := IntToDecimal(maxLength);
    LastIndexOfAfter(text, '_', digits);
    assert p[|text| + 1..] == digits;
    assert p[..|text|] == text;
    IntToDecimalRoundTrip(maxLength);
  }

  /** Distinct `(text, max_length)` pairs give distinct preimages, even when the text holds underscores. */
  lemma PreimageInjective(t1: string, m1: int, t2: string, m2: int)
    ensures Preimage(t1, m1) == Preimage(t2, m2) <==> t1 == t2 && m1 == m2
  {
    SplitPreimageRoundTrip(t1, m1);
    SplitPreimageRoundTrip(t2, m2);
  }

  ghost predicate Injective(f: string -> string) {
    forall a, b :: f(a) == f(b) ==> a == b
  }

  /**
   * The key is a function of `(text, max_length)`, and, for a hash without
   * collisions, equal keys mean equal requests.
   */
  lemma CacheKeyIdentifiesRequest(md5: string -> string, t1: string, m1: int, t2: string, m2: int)
    requires Injective(md5)
    ensures GenerateCacheKey(md5, t1, m1) == GenerateCacheKey(md5, t2, m2) <==> t1 == t2 && m1 == m2
  {
    PreimageInjective(t1, m1, t2, m2);
  }
}
