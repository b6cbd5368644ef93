/**
 * Small tables, for any alias, target SEO path and route, with every result the resolver
 * may return for them.
 */
module SeoResolverExamples {
  import opened Wrappers
  import opened PhpTrim
  import opened SeoUrl
  import opened SeoResolver

  const Lang: Bytes := [1]
  const Channel: Bytes := [2]

  function Row(id: bv8, salesChannelId: Option<Bytes>, seoPathInfo: string, pathInfo: string, isCanonical: bool, isValid: bool): SeoUrlRecord {
    SeoUrlRecord([id], Lang, salesChannelId, pathInfo, seoPathInfo, isCanonical, isValid)
  }

  /** A non-empty path segment with no slash at either end, such as `shoes` or `detail/1`. */
  predicate Plain(s: string) {
    s != [] && s[0] != '/' && s[|s| - 1] != '/'
  }

  /** The trims leave a plain segment alone. */
  lemma Untouched(s: string)
    requires Plain(s)
    ensures LTrimSlashes(s) == s
    ensures SlashPrefixed(s) == "/" + s
    ensures SlashWrapped(s) == "/" + s + "/"
  {
    assert s == Slashes(0) + s + Slashes(0);
    TrimSlashesOf(0, s, 0);
    LTrimSlashesOf(0, s);
  }

  /** What the trims do to a request or route `'/' . segment`. */
  lemma Rewritten(s: string)
    requires Plain(s)
    ensures LTrimSlashes("/" + s) == s
    ensures SlashPrefixed("/" + s) == "/" + s
    ensures SlashWrapped("/" + s) == "/" + s + "/"
  {
    assert "/" + s == Slashes(1) + s + Slashes(0);
    TrimSlashesOf(1, s, 0);
    assert "/" + s == Slashes(1) + s;
    LTrimSlashesOf(1, s);
  }

  /** An alias row (NULL channel, not canonical) and a canonical row for the same route. */
  function AliasAndCanonical(alias: string, target: string, route: string, canonicalChannel: Option<Bytes>): Table {
    [Row(1, None, alias, "/" + route, false, true),
     Row(2, canonicalChannel, target, "/" + route, true, true)]
  }

  lemma AliasAndCanonicalAnswers(alias: string, target: string, route: string, canonicalChannel: Option<Bytes>)
    requires Plain(alias) && alias != target
    ensures var table := AliasAndCanonical(alias, target, route, canonicalChannel);
            PrimaryAnswer(table, Lang, Channel, alias, Some(table[0]))
            && RedirectAnswer(table, Lang, Channel, [1], "/" + route,
                              if canonicalChannel == Some(Channel) then Some(table[1]) else None)
            && UniqueSeoPaths(table) && UniqueCanonicals(table)
  {
    LexLessIrreflexive(alias);
  }

  /**
   * With the canonical row on a NULL channel, the alias is found but the canonical row is
   * no redirect target (`sales_channel_id = :x` is never true of NULL): no `canonicalPathInfo`.
   */
  lemma GlobalCanonicalIsNoRedirectTarget(alias: string, target: string, route: string, result: Resolution)
    requires Plain(alias) && Plain(route) && alias != target
    ensures var table := AliasAndCanonical(alias, target, route, None);
            IsResolution(table, Lang, Channel, alias, result)
            <==> result == Resolution(Some([1]), "/" + route + "/", false, None)
  {
    var table := AliasAndCanonical(alias, target, route, None);
    var expected := Resolution(Some([1]), "/" + route + "/", false, None);
    AliasAndCanonicalAnswers(alias, target, route, None);
    Untouched(alias);
    Rewritten(route);
    RunIsResolution(table, Lang, Channel, alias, Some(table[0]), None, expected);
    if IsResolution(table, Lang, Channel, alias, result) {
      Deterministic(table, Lang, Channel, alias, result, expected);
    }
  }

  /** With the canonical row on the concrete channel it is found: a redirect to '/' + target, without a trailing slash. */
  lemma ChannelCanonicalIsRedirectTarget(alias: string, target: string, route: string, result: Resolution)
    requires Plain(alias) && Plain(target) && Plain(route) && alias != target
    ensures var table := AliasAndCanonical(alias, target, route, Some(Channel));
            IsResolution(table, Lang, Channel, "/" + alias, result)
            <==> result == Resolution(Some([1]), "/" + route + "/", false, Some("/" + target))
  {
    var table := AliasAndCanonical(alias, target, route, Some(Channel));
    var expected := Resolution(Some([1]), "/" + route + "/", false, Some("/" + target));
    AliasAndCanonicalAnswers(alias, target, route, Some(Channel));
    Rewritten(alias);
    Untouched(target);
    Rewritten(route);
    RunIsResolution(table, Lang, Channel, "/" + alias, Some(table[0]), Some(table[1]), expected);
    if IsResolution(table, Lang, Channel, "/" + alias, result) {
      Deterministic(table, Lang, Channel, "/" + alias, result, expected);
    }
  }

  /** An unknown path on an empty table passes through as the synthesised record. */
  lemma UnknownPathPassesThrough(path: string, result: Resolution)
    requires Plain(path)
    ensures IsResolution([], Lang, Channel, path, result)
            <==> result == Resolution(None, "/" + path + "/", false, None)
  {
    var expected := Resolution(None, "/" + path + "/", false, None);
    Untouched(path);
    RunIsResolution([], Lang, Channel, path, None, None, expected);
    if IsResolution([], Lang, Channel, path, result) {
      Deterministic([], Lang, Channel, path, result, expected);
    }
  }

  /** A single row for the concrete channel whose `is_valid` is 0. */
  function InvalidOnly(path: string, route: string): Table {
    [Row(1, Some(Channel), path, "/" + route, true, false)]
  }

  lemma InvalidOnlyAnswers(path: string, route: string)
    ensures var table := InvalidOnly(path, route);
            PrimaryAnswer(table, Lang, Channel, path, None)
            && RedirectAnswer(table, Lang, Channel, [], "/" + path, None)
            && UniqueSeoPaths(table) && UniqueCanonicals(table)
  {
  }

  /** A matching row with `is_valid = 0` is treated as absent. */
  lemma InvalidRowIsAbsent(path: string, route: string, result: Resolution)
    requires Plain(path)
    ensures IsResolution(InvalidOnly(path, route), Lang, Channel, path, result)
            <==> result == Resolution(None, "/" + path + "/", false, None)
  {
    var table := InvalidOnly(path, route);
    var expected := Resolution(None, "/" + path + "/", false, None);
    InvalidOnlyAnswers(path, route);
    Untouched(path);
    RunIsResolution(table, Lang, Channel, path, None, None, expected);
    if IsResolution(table, Lang, Channel, path, result) {
      Deterministic(table, Lang, Channel, path, result, expected);
    }
  }

  /** A single canonical row for the concrete channel. */
  function CanonicalOnly(target: string, route: string): Table {
    [Row(2, Some(Channel), target, "/" + route, true, true)]
  }

  lemma CanonicalOnlyAnswers(target: string, route: string)
    requires route != target
    ensures var table := CanonicalOnly(target, route);
            PrimaryAnswer(table, Lang, Channel, route, None)
            && RedirectAnswer(table, Lang, Channel, [], "/" + route, Some(table[0]))
            && UniqueSeoPaths(table) && UniqueCanonicals(table)
  {
  }

  /**
   * A request for a technical route that has no SEO row of its own still gets the route's
   * canonical SEO path: the synthesised record takes part in the redirect lookup with id ''.
   */
  lemma UnmatchedRouteFindsCanonical(route: string, target: string, result: Resolution)
    requires Plain(route) && Plain(target) && route != target
    ensures IsResolution(CanonicalOnly(target, route), Lang, Channel, route, result)
            <==> result == Resolution(None, "/" + route + "/", false, Some("/" + target))
  {
    var table := CanonicalOnly(target, route);
    var expected := Resolution(None, "/" + route + "/", false, Some("/" + target));
    CanonicalOnlyAnswers(target, route);
    Untouched(route);
    Untouched(target);
    RunIsResolution(table, Lang, Channel, route, None, Some(table[0]), expected);
    if IsResolution(table, Lang, Channel, route, result) {
      Deterministic(table, Lang, Channel, route, result, expected);
    }
  }

  /** Two valid rows for the same channel and SEO path, pointing at different routes. */
  function Tied(path: string, route1: string, route2: string): Table {
    [Row(1, Some(Channel), path, "/" + route1, true, true),
     Row(2, Some(Channel), path, "/" + route2, true, true)]
  }

  lemma TiedAnswers(path: string, route1: string, route2: string)
    ensures var table := Tied(path, route1, route2);
            PrimaryAnswer(table, Lang, Channel, path, Some(table[0]))
            && PrimaryAnswer(table, Lang, Channel, path, Some(table[1]))
  {
    LexLessIrreflexive(path);
  }

  /** Any run on the tied table returns one of the two rows. */
  lemma TiedRun(path: string, route1: string, route2: string,
                primary: Option<SeoUrlRecord>, canonical: Option<SeoUrlRecord>, result: Resolution)
    requires Plain(route1) && Plain(route2)
    requires Run(Tied(path, route1, route2), Lang, Channel, path, primary, canonical, result)
    ensures result == Resolution(Some([1]), "/" + route1 + "/", true, None)
            || result == Resolution(Some([2]), "/" + route2 + "/", true, None)
  {
    var table := Tied(path, route1, route2);
    assert PrimaryFilter(table[0], Lang, Channel, path);
    assert primary.Some?;
    assert primary.value == table[0] || primary.value == table[1];
    Rewritten(route1);
    Rewritten(route2);
  }

  /** The ORDER BY leaves the two rows tied: either may be the answer, and nothing else is. */
  lemma TiedRowsEitherMayWin(path: string, route1: string, route2: string, result: Resolution)
    requires Plain(path) && Plain(route1) && Plain(route2)
    ensures IsResolution(Tied(path, route1, route2), Lang, Channel, path, result)
            <==> (result == Resolution(Some([1]), "/" + route1 + "/", true, None)
                  || result == Resolution(Some([2]), "/" + route2 + "/", true, None))
  {
    var table := Tied(path, route1, route2);
    TiedAnswers(path, route1, route2);
    Untouched(path);
    Rewritten(route1);
    Rewritten(route2);
    RunIsResolution(table, Lang, Channel, path, Some(table[0]), None, Resolution(Some([1]), "/" + route1 + "/", true, None));
    RunIsResolution(table, Lang, Channel, path, Some(table[1]), None, Resolution(Some([2]), "/" + route2 + "/", true, None));
    if IsResolution(table, Lang, Channel, path, result) {
      var primary, canonical :| Run(table, Lang, Channel, path, primary, canonical, result);
      TiedRun(path, route1, route2, primary, canonical, result);
    }
  }
}
