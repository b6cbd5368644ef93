/**
 * `SeoResolver::resolveSeoPath`: maps a requested storefront path to route information for
 * one language and one sales channel, over a read-only snapshot of the `seo_url` table.
 *
 * Because rows tied after ORDER BY, and the candidates of the redirect lookup, may come
 * back in any order, `IsResolution` describes EVERY result the method may return;
 * the properties below hold of each of them. `ResolveSeoPath` is one such result.
 */
module SeoResolver {
  import opened Wrappers
  import opened PhpTrim
  import opened SeoUrl

  /**
   * The array the method returns: `id` only when a row was found, `pathInfo`, `isCanonical`,
   * and `canonicalPathInfo` only when a redirect target was found.
   */
  datatype Resolution = Resolution(id: Option<Bytes>, pathInfo: string, isCanonical: bool, canonicalPathInfo: Option<string>)

  /** The columns the primary lookup fetches, or the record synthesised when it finds nothing (no `id`). */
  datatype PrimaryHit = PrimaryHit(id: Option<Bytes>, pathInfo: string, isCanonical: bool)

  /** The answer for a path that is empty once its leading slashes are gone. */
  function RootResolution(): Resolution {
    Resolution(None, "/", false, None)
  }

  function HitOf(seoPath: string, answer: Option<SeoUrlRecord>): PrimaryHit {
    match answer
    case None => PrimaryHit(None, seoPath, false)
    case Some(row) => PrimaryHit(Some(row.id), row.pathInfo, row.isCanonical)
  }

  /** The value bound to `:id` in the redirect lookup: the hit's id, or '' for the synthesised record. */
  function ExcludedId(id: Option<Bytes>): Bytes {
    match id
    case None => []
    case Some(i) => i
  }

  /** `'/' . trim($s, '/')` */
  function SlashPrefixed(s: string): string {
    "/" + TrimSlashes(s)
  }

  /** `'/' . trim($s, '/') . '/'` */
  function SlashWrapped(s: string): string {
    "/" + TrimSlashes(s) + "/"
  }

  /** The returned array, given the primary hit and the redirect lookup's answer. */
  function Assemble(hit: PrimaryHit, canonical: Option<SeoUrlRecord>): Resolution {
    Resolution(
      hit.id,
      SlashWrapped(hit.pathInfo),
      hit.isCanonical,
      if canonical.Some? then Some(SlashPrefixed(canonical.value.seoPathInfo)) else None)
  }

  /**
   * One admissible run past the root check: `primary` is an admissible answer of the primary
   * query; the redirect query runs only for a non-canonical hit and `canonical` is then one
   * of its admissible answers; `result` is what the method returns.
   */
  predicate Run(table: Table, languageId: Bytes, salesChannelId: Bytes, seoPath: string,
                primary: Option<SeoUrlRecord>, canonical: Option<SeoUrlRecord>, result: Resolution)
  {
    var hit := HitOf(seoPath, primary);
    PrimaryAnswer(table, languageId, salesChannelId, seoPath, primary)
    && (if hit.isCanonical then canonical.None?
        else RedirectAnswer(table, languageId, salesChannelId, ExcludedId(hit.id), SlashPrefixed(hit.pathInfo), canonical))
    && result == Assemble(hit, canonical)
  }

  /** `result` is a value `resolveSeoPath(languageId, salesChannelId, pathInfo)` may return on `table`. */
  ghost predicate IsResolution(table: Table, languageId: Bytes, salesChannelId: Bytes, pathInfo: string, result: Resolution) {
    var seoPath := LTrimSlashes(pathInfo);
    if seoPath == [] then result == RootResolution()
    else exists primary, canonical :: Run(table, languageId, salesChannelId, seoPath, primary, canonical, result)
  }

  /** An admissible run for a request that is not only slashes yields an admissible result. */
  lemma RunIsResolution(table: Table, languageId: Bytes, salesChannelId: Bytes, pathInfo: string,
                        primary: Option<SeoUrlRecord>, canonical: Option<SeoUrlRecord>, result: Resolution)
    requires LTrimSlashes(pathInfo) != []
    requires Run(table, languageId, salesChannelId, LTrimSlashes(pathInfo), primary, canonical, result)
    ensures IsResolution(table, languageId, salesChannelId, pathInfo, result)
  {
  }

  /** The method, with the rows scanned in the table's order. */
  function ResolveSeoPath(table: Table, languageId: Bytes, salesChannelId: Bytes, pathInfo: string): (result: Resolution)
    ensures IsResolution(table, languageId, salesChannelId, pathInfo, result)
  {
    var seoPath := LTrimSlashes(pathInfo);
    if seoPath == [] then RootResolution()
    else
      var primary := PrimaryQuery(table, languageId, salesChannelId, seoPath);
      var hit := HitOf(seoPath, primary);
      var canonical :=
        if hit.isCanonical then None
        else RedirectQuery(table, languageId, salesChannelId, ExcludedId(hit.id), SlashPrefixed(hit.pathInfo));
      var result := Assemble(hit, canonical);
      assert Run(table, languageId, salesChannelId, seoPath, primary, canonical, result);
      result
  }

  /** The result carries the route and canonical flag of `row`, the row the primary lookup returned. */
  predicate FromRow(result: Resolution, row: SeoUrlRecord) {
    result.id == Some(row.id)
    && result.pathInfo == SlashWrapped(row.pathInfo)
    && result.isCanonical == row.isCanonical
  }

  /** The root result is returned exactly for requests made of slashes only, whatever the table holds. */
  lemma RootResult(table: Table, languageId: Bytes, salesChannelId: Bytes, pathInfo: string, result: Resolution)
    requires IsResolution(table, languageId, salesChannelId, pathInfo, result)
    ensures result == RootResolution() <==> AllSlashes(pathInfo)
  {
    LTrimSlashesEmpty(pathInfo);
  }

  /** Two requests that differ only in leading slashes admit the same results. */
  lemma LeadingSlashesIgnored(table: Table, languageId: Bytes, salesChannelId: Bytes, n: nat, pathInfo: string, result: Resolution)
    ensures IsResolution(table, languageId, salesChannelId, Slashes(n) + pathInfo, result)
            <==> IsResolution(table, languageId, salesChannelId, pathInfo, result)
    ensures ResolveSeoPath(table, languageId, salesChannelId, Slashes(n) + pathInfo)
            == ResolveSeoPath(table, languageId, salesChannelId, pathInfo)
  {
    LTrimSlashesIgnoresLeadingSlashes(n, pathInfo);
  }

  /**
   * Past the root check, the result either comes from a row that passes the primary filter
   * (same language, the given or a NULL channel, exactly the stripped path, valid), or, when
   * no row passes, it is the synthesised record: the stripped request, not canonical, no id.
   */
  lemma PrimaryOrFallback(table: Table, languageId: Bytes, salesChannelId: Bytes, pathInfo: string, result: Resolution)
    requires IsResolution(table, languageId, salesChannelId, pathInfo, result)
    requires !AllSlashes(pathInfo)
    ensures var seoPath := LTrimSlashes(pathInfo);
            if exists q :: q in table && PrimaryFilter(q, languageId, salesChannelId, seoPath) then
              exists row :: row in table && PrimaryFilter(row, languageId, salesChannelId, seoPath) && FromRow(result, row)
            else
              result.id == None && !result.isCanonical && result.pathInfo == SlashWrapped(seoPath)
  {
    var seoPath := LTrimSlashes(pathInfo);
    LTrimSlashesEmpty(pathInfo);
    var primary, canonical :| Run(table, languageId, salesChannelId, seoPath, primary, canonical, result);
    if primary.Some? {
      assert FromRow(result, primary.value);
    }
  }

  lemma RunOnValidRows(table: Table, languageId: Bytes, salesChannelId: Bytes, seoPath: string,
                       primary: Option<SeoUrlRecord>, canonical: Option<SeoUrlRecord>, result: Resolution)
    ensures Run(table, languageId, salesChannelId, seoPath, primary, canonical, result)
            <==> Run(ValidRows(table), languageId, salesChannelId, seoPath, primary, canonical, result)
  {
    var hit := HitOf(seoPath, primary);
    AnswersOnValidRows(table, languageId, salesChannelId, seoPath, ExcludedId(hit.id), SlashPrefixed(hit.pathInfo), primary);
    AnswersOnValidRows(table, languageId, salesChannelId, seoPath, ExcludedId(hit.id), SlashPrefixed(hit.pathInfo), canonical);
  }

  /** Rows with `is_valid = 0` play no part: deleting them all leaves the admissible results unchanged. */
  lemma InvalidRowsIgnored(table: Table, languageId: Bytes, salesChannelId: Bytes, pathInfo: string, result: Resolution)
    ensures IsResolution(table, languageId, salesChannelId, pathInfo, result)
            <==> IsResolution(ValidRows(table), languageId, salesChannelId, pathInfo, result)
  {
    var seoPath := LTrimSlashes(pathInfo);
    var valid := ValidRows(table);
    if seoPath != [] {
      if IsResolution(table, languageId, salesChannelId, pathInfo, result) {
        var primary, canonical :| Run(table, languageId, salesChannelId, seoPath, primary, canonical, result);
        RunOnValidRows(table, languageId, salesChannelId, seoPath, primary, canonical, result);
      }
      if IsResolution(valid, languageId, salesChannelId, pathInfo, result) {
        var primary, canonical :| Run(valid, languageId, salesChannelId, seoPath, primary, canonical, result);
        RunOnValidRows(table, languageId, salesChannelId, seoPath, primary, canonical, result);
      }
    }
  }

  /**
   * When a row for the concrete sales channel matches, the result comes from such a row,
   * even if NULL-channel rows match too, whatever order the rows are stored in.
   */
  lemma ChannelSpecificWins(table: Table, languageId: Bytes, salesChannelId: Bytes, pathInfo: string, result: Resolution)
    requires IsResolution(table, languageId, salesChannelId, pathInfo, result)
    requires !AllSlashes(pathInfo)
    requires exists q :: q in table && PrimaryFilter(q, languageId, salesChannelId, LTrimSlashes(pathInfo))
                         && q.salesChannelId == Some(salesChannelId)
    ensures exists row :: row in table && PrimaryFilter(row, languageId, salesChannelId, LTrimSlashes(pathInfo))
                          && row.salesChannelId == Some(salesChannelId) && FromRow(result, row)
  {
    var seoPath := LTrimSlashes(pathInfo);
    LTrimSlashesEmpty(pathInfo);
    var q :| q in table && PrimaryFilter(q, languageId, salesChannelId, seoPath) && q.salesChannelId == Some(salesChannelId);
    var primary, canonical :| Run(table, languageId, salesChannelId, seoPath, primary, canonical, result);
    var row := primary.value;
    PrimaryOrder(q, row, languageId, salesChannelId, seoPath);
    assert FromRow(result, row);
  }

  /** A canonical hit never carries `canonicalPathInfo`. */
  lemma CanonicalHasNoRedirect(table: Table, languageId: Bytes, salesChannelId: Bytes, pathInfo: string, result: Resolution)
    requires IsResolution(table, languageId, salesChannelId, pathInfo, result)
    requires result.isCanonical
    ensures result.canonicalPathInfo.None?
  {
    var seoPath := LTrimSlashes(pathInfo);
    if seoPath != [] {
      var primary, canonical :| Run(table, languageId, salesChannelId, seoPath, primary, canonical, result);
    }
  }

  /**
   * For a non-canonical result past the root check, `canonicalPathInfo` is present exactly
   * when some row passes the redirect filter for the result's id (or '') and route, and then it
   * is '/' + trim of such a row's SEO path. Such a row has the concrete sales channel, never NULL.
   */
  lemma RedirectTarget(table: Table, languageId: Bytes, salesChannelId: Bytes, pathInfo: string, result: Resolution)
    requires IsResolution(table, languageId, salesChannelId, pathInfo, result)
    requires !AllSlashes(pathInfo) && !result.isCanonical
    ensures var route := SlashPrefixed(result.pathInfo);
            (result.canonicalPathInfo.Some? <==>
               exists q :: q in table && RedirectFilter(q, languageId, salesChannelId, ExcludedId(result.id), route))
            && (result.canonicalPathInfo.Some? ==>
                 exists row :: row in table && RedirectFilter(row, languageId, salesChannelId, ExcludedId(result.id), route)
                               && row.salesChannelId == Some(salesChannelId)
                               && result.canonicalPathInfo.value == SlashPrefixed(row.seoPathInfo))
  {
    var seoPath := LTrimSlashes(pathInfo);
    LTrimSlashesEmpty(pathInfo);
    var primary, canonical :| Run(table, languageId, salesChannelId, seoPath, primary, canonical, result);
    var hit := HitOf(seoPath, primary);
    TrimSlashesOfWrapped(hit.pathInfo);
    assert SlashPrefixed(result.pathInfo) == SlashPrefixed(hit.pathInfo);
    if canonical.Some? {
      assert RedirectFilter(canonical.value, languageId, salesChannelId, ExcludedId(result.id), SlashPrefixed(result.pathInfo));
    }
  }

  /**
   * Shape of the returned paths: `pathInfo` starts and ends with a slash and holds no further
   * slash at either end of its interior; past the root check it is '/' + inner + '/'.
   * `canonicalPathInfo` is a slash followed by a string with no slash at either end.
   */
  lemma ResultShape(table: Table, languageId: Bytes, salesChannelId: Bytes, pathInfo: string, result: Resolution)
    requires IsResolution(table, languageId, salesChannelId, pathInfo, result)
    ensures var p := result.pathInfo;
            |p| >= 1 && p[0] == '/' && p[|p| - 1] == '/'
            && (AllSlashes(pathInfo) ==> p == "/")
            && (!AllSlashes(pathInfo) ==>
                  |p| >= 2 && NoLeadingSlash(p[1..|p| - 1]) && NoTrailingSlash(p[1..|p| - 1]))
    ensures result.canonicalPathInfo.Some? ==>
              var c := result.canonicalPathInfo.value;
              |c| >= 1 && c[0] == '/' && NoLeadingSlash(c[1..]) && NoTrailingSlash(c[1..])
  {
    var seoPath := LTrimSlashes(pathInfo);
    LTrimSlashesEmpty(pathInfo);
    if seoPath != [] {
      var primary, canonical :| Run(table, languageId, salesChannelId, seoPath, primary, canonical, result);
      var inner := TrimSlashes(HitOf(seoPath, primary).pathInfo);
      assert result.pathInfo[1..|result.pathInfo| - 1] == inner;
      if canonical.Some? {
        assert result.canonicalPathInfo.value[1..] == TrimSlashes(canonical.value.seoPathInfo);
      }
    }
  }

  /**
   * On a table without ties (at most one valid row per language, channel or NULL and SEO path;
   * at most one valid canonical row per language, concrete channel and route), the result no
   * longer depends on the order in which rows come back.
   */
  lemma Deterministic(table: Table, languageId: Bytes, salesChannelId: Bytes, pathInfo: string, r1: Resolution, r2: Resolution)
    requires UniqueSeoPaths(table) && UniqueCanonicals(table)
    requires IsResolution(table, languageId, salesChannelId, pathInfo, r1)
    requires IsResolution(table, languageId, salesChannelId, pathInfo, r2)
    ensures r1 == r2
  {
    var seoPath := LTrimSlashes(pathInfo);
    if seoPath != [] {
      var p1, c1 :| Run(table, languageId, salesChannelId, seoPath, p1, c1, r1);
      var p2, c2 :| Run(table, languageId, salesChannelId, seoPath, p2, c2, r2);
      PrimaryAnswerUnique(table, languageId, salesChannelId, seoPath, p1, p2);
      var hit := HitOf(seoPath, p1);
      if !hit.isCanonical {
        RedirectAnswerUnique(table, languageId, salesChannelId, ExcludedId(hit.id), SlashPrefixed(hit.pathInfo), c1, c2);
      }
    }
  }
}
