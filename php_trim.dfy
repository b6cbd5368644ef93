/**
 * PHP's `ltrim($s, '/')`, `rtrim($s, '/')` and `trim($s, '/')`: each removes EVERY
 * slash at the named end(s) of the string, not just one.
 */
module PhpTrim {

  /** A run of `n` slashes. */
  function Slashes(n: nat): (s: string)
    ensures |s| == n
  {
    seq(n, _ => '/')
  }

  /** Every character of `s` is a slash (the empty string included). */
  predicate AllSlashes(s: string) {
    s == Slashes(|s|)
  }

  predicate NoLeadingSlash(s: string) {
    s == [] || s[0] != '/'
  }

  predicate NoTrailingSlash(s: string) {
    s == [] || s[|s| - 1] != '/'
  }

  /** `ltrim($s, '/')`: `s` is a run of slashes followed by the result, which does not start with a slash. */
  function LTrimSlashes(s: string): (r: string)
    ensures |r| <= |s| && s == Slashes(|s| - |r|) + r
    ensures NoLeadingSlash(r)
  {
    if s != [] && s[0] == '/' then
      var r := LTrimSlashes(s[1..]);
      assert s == "/" + s[1..];
      r
    else
      s
  }

  /** `rtrim($s, '/')`: `s` is the result followed by a run of slashes; the result does not end with a slash. */
  function RTrimSlashes(s: string): (r: string)
    ensures |r| <= |s| && s == r + Slashes(|s| - |r|)
    ensures NoTrailingSlash(r)
  {
    if s != [] && s[|s| - 1] == '/' then
      var r := RTrimSlashes(s[..|s| - 1]);
      SlashesAppend(|s| - 1 - |r|);
      assert s == s[..|s| - 1] + "/";
      r
    else
      assert s == s + [];
      s
  }

  /**
   * `trim($s, '/')`: `s` is the run of slashes `ltrim` removes, the result, and another run
   * of slashes; the result neither starts nor ends with a slash.
   */
  function TrimSlashes(s: string): (r: string)
    ensures NoLeadingSlash(r) && NoTrailingSlash(r)
    ensures var lead := |s| - |LTrimSlashes(s)|;
            lead + |r| <= |s| && s == Slashes(lead) + r + Slashes(|s| - lead - |r|)
  {
    var l := LTrimSlashes(s);
    var r := RTrimSlashes(l);
    assert NoLeadingSlash(r) by {
      if r != [] { assert r[0] == l[0]; }
    }
    r
  }

  /** A slash appended to a run of slashes is a longer run. */
  lemma {:induction false} SlashesAppend(n: nat)
    ensures Slashes(n) + "/" == Slashes(n + 1)
  {
    if n > 0 {
      SlashesAppend(n - 1);
      assert Slashes(n) + "/" == "/" + (Slashes(n - 1) + "/");
    }
  }

  /** Two runs of slashes make one. */
  lemma {:induction false} SlashesConcat(m: nat, n: nat)
    ensures Slashes(m) + Slashes(n) == Slashes(m + n)
  {
    if m > 0 {
      SlashesConcat(m - 1, n);
      assert Slashes(m) + Slashes(n) == "/" + (Slashes(m - 1) + Slashes(n));
    }
  }

  /** `ltrim` is determined by its contract: a run of slashes and a string not starting with one give that string. */
  lemma {:induction false} LTrimSlashesOf(n: nat, rest: string)
    requires NoLeadingSlash(rest)
    ensures LTrimSlashes(Slashes(n) + rest) == rest
  {
    if n > 0 {
      assert (Slashes(n) + rest)[1..] == Slashes(n - 1) + rest;
      LTrimSlashesOf(n - 1, rest);
    } else {
      assert Slashes(n) + rest == rest;
    }
  }

  /** `rtrim` is determined by its contract. */
  lemma {:induction false} RTrimSlashesOf(rest: string, n: nat)
    requires NoTrailingSlash(rest)
    ensures RTrimSlashes(rest + Slashes(n)) == rest
  {
    if n > 0 {
      var shorter := rest + Slashes(n - 1);
      SlashesAppend(n - 1);
      assert rest + Slashes(n) == shorter + "/";
      assert (shorter + "/")[..|shorter|] == shorter;
      RTrimSlashesOf(rest, n - 1);
    } else {
      assert rest + Slashes(n) == rest;
    }
  }

  /** `ltrim` leaves nothing exactly when the string consists of slashes only. */
  lemma LTrimSlashesEmpty(s: string)
    ensures LTrimSlashes(s) == [] <==> AllSlashes(s)
  {
    if AllSlashes(s) {
      assert s == Slashes(|s|) + [];
      LTrimSlashesOf(|s|, []);
    }
  }

  /** Extra leading slashes never change what `ltrim` returns. */
  lemma LTrimSlashesIgnoresLeadingSlashes(n: nat, s: string)
    ensures LTrimSlashes(Slashes(n) + s) == LTrimSlashes(s)
  {
    var r := LTrimSlashes(s);
    var k := |s| - |r|;
    SlashesConcat(n, k);
    calc {
      Slashes(n) + s;
      Slashes(n) + (Slashes(k) + r);
      (Slashes(n) + Slashes(k)) + r;
      Slashes(n + k) + r;
    }
    LTrimSlashesOf(n + k, r);
  }

  /** `trim` is determined by its contract: slashes, a string with no slash at either end, slashes. */
  lemma TrimSlashesOf(before: nat, core: string, after: nat)
    requires NoLeadingSlash(core) && NoTrailingSlash(core)
    ensures TrimSlashes(Slashes(before) + core + Slashes(after)) == core
  {
    if core == [] {
      SlashesConcat(before, after);
      assert Slashes(before) + core + Slashes(after) == Slashes(before + after) + [];
      LTrimSlashesOf(before + after, []);
    } else {
      assert Slashes(before) + core + Slashes(after) == Slashes(before) + (core + Slashes(after));
      LTrimSlashesOf(before, core + Slashes(after));
      RTrimSlashesOf(core, after);
    }
  }

  /** Trimming twice is trimming once. */
  lemma TrimSlashesIdempotent(s: string)
    ensures TrimSlashes(TrimSlashes(s)) == TrimSlashes(s)
  {
    var t := TrimSlashes(s);
    assert Slashes(0) + t + Slashes(0) == t;
    TrimSlashesOf(0, t, 0);
  }

  /** Re-wrapping a trimmed string in slashes and trimming again gives it back. */
  lemma TrimSlashesOfWrapped(s: string)
    ensures TrimSlashes("/" + TrimSlashes(s) + "/") == TrimSlashes(s)
    ensures TrimSlashes("/" + TrimSlashes(s)) == TrimSlashes(s)
  {
    var t := TrimSlashes(s);
    assert Slashes(1) == "/";
    TrimSlashesOf(1, t, 1);
    assert "/" + t == Slashes(1) + t + Slashes(0);
    TrimSlashesOf(1, t, 0);
  }
}
