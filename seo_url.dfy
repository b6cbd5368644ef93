/**
 * The `seo_url` table as the resolver reads it, and its two queries: what each WHERE
 * clause admits, which rows each query with LIMIT 1 may return, and one query engine
 * that returns such a row.
 */
module SeoUrl {
  import opened Wrappers

  /** Binary UUIDs as stored in the table; the model only compares them for equality. */
  type Bytes = seq<bv8>

  /** One row of `seo_url`. A `salesChannelId` of None is SQL NULL: a mapping for every sales channel of the language. */
  datatype SeoUrlRecord = SeoUrlRecord(
    id: Bytes,
    languageId: Bytes,
    salesChannelId: Option<Bytes>,
    pathInfo: string,
    seoPathInfo: string,
    isCanonical: bool,
    isValid: bool)

  /** A snapshot of the table; its order is the order in which an engine happens to scan the rows. */
  type Table = seq<SeoUrlRecord>

  /**
   * WHERE clause of the primary lookup: same language, the given sales channel or NULL,
   * exactly the requested SEO path, valid.
   */
  predicate PrimaryFilter(row: SeoUrlRecord, languageId: Bytes, salesChannelId: Bytes, seoPath: string) {
    row.languageId == languageId
    && (row.salesChannelId == Some(salesChannelId) || row.salesChannelId.None?)
    && row.seoPathInfo == seoPath
    && row.isValid
  }

  /** Lexicographic order on strings, the first ORDER BY key. */
  predicate LexLess(a: string, b: string) {
    b != [] && (a == [] || a[0] < b[0] || (a[0] == b[0] && LexLess(a[1..], b[1..])))
  }

  /** `ORDER BY seo_path_info, sales_channel_id IS NULL`: row `q` sorts strictly before row `r`. */
  predicate SortsBefore(q: SeoUrlRecord, r: SeoUrlRecord) {
    LexLess(q.seoPathInfo, r.seoPathInfo)
    || (q.seoPathInfo == r.seoPathInfo && q.salesChannelId.Some? && r.salesChannelId.None?)
  }

  /**
   * The rows the primary query with LIMIT 1 may return: nothing exactly when no row passes
   * the filter, otherwise any row passing it that no other such row sorts before. Rows left
   * tied by the ORDER BY keys may come back in any order, so any of them is admissible.
   */
  predicate PrimaryAnswer(table: Table, languageId: Bytes, salesChannelId: Bytes, seoPath: string, answer: Option<SeoUrlRecord>) {
    match answer
    case None => forall q | q in table :: !PrimaryFilter(q, languageId, salesChannelId, seoPath)
    case Some(row) =>
      row in table && PrimaryFilter(row, languageId, salesChannelId, seoPath)
      && forall q | q in table && PrimaryFilter(q, languageId, salesChannelId, seoPath) :: !SortsBefore(q, row)
  }

  /**
   * WHERE clause of the redirect lookup: same language, EXACTLY the given sales channel
   * (`sales_channel_id = :x` is never true of NULL), another id, the given route, valid and canonical.
   */
  predicate RedirectFilter(row: SeoUrlRecord, languageId: Bytes, salesChannelId: Bytes, excludedId: Bytes, pathInfo: string) {
    row.languageId == languageId
    && row.salesChannelId == Some(salesChannelId)
    && row.id != excludedId
    && row.pathInfo == pathInfo
    && row.isValid
    && row.isCanonical
  }

  /** The rows the redirect query (LIMIT 1, no ORDER BY) may return: nothing exactly when no row passes, otherwise any row that does. */
  predicate RedirectAnswer(table: Table, languageId: Bytes, salesChannelId: Bytes, excludedId: Bytes, pathInfo: string, answer: Option<SeoUrlRecord>) {
    match answer
    case None => forall q | q in table :: !RedirectFilter(q, languageId, salesChannelId, excludedId, pathInfo)
    case Some(row) => row in table && RedirectFilter(row, languageId, salesChannelId, excludedId, pathInfo)
  }

  /** The table with every `is_valid = 0` row removed. */
  function ValidRows(table: Table): (valid: Table)
    ensures forall q :: q in valid <==> q in table && q.isValid
  {
    if table == [] then []
    else (if table[0].isValid then [table[0]] else []) + ValidRows(table[1..])
  }

  /** Both queries admit the same answers on the table and on its valid rows alone. */
  lemma AnswersOnValidRows(table: Table, languageId: Bytes, salesChannelId: Bytes, seoPath: string,
                           excludedId: Bytes, pathInfo: string, answer: Option<SeoUrlRecord>)
    ensures PrimaryAnswer(table, languageId, salesChannelId, seoPath, answer)
            <==> PrimaryAnswer(ValidRows(table), languageId, salesChannelId, seoPath, answer)
    ensures RedirectAnswer(table, languageId, salesChannelId, excludedId, pathInfo, answer)
            <==> RedirectAnswer(ValidRows(table), languageId, salesChannelId, excludedId, pathInfo, answer)
  {
  }

  /** No string sorts strictly before itself. */
  lemma {:induction false} LexLessIrreflexive(a: string)
    ensures !LexLess(a, a)
  {
    if a != [] {
      LexLessIrreflexive(a[1..]);
    }
  }

  /**
   * Among rows that pass the primary filter the first ORDER BY key is always tied, so the
   * order reduces to: a row for the concrete sales channel comes before a NULL-channel row.
   */
  lemma PrimaryOrder(q: SeoUrlRecord, r: SeoUrlRecord, languageId: Bytes, salesChannelId: Bytes, seoPath: string)
    requires PrimaryFilter(q, languageId, salesChannelId, seoPath)
    requires PrimaryFilter(r, languageId, salesChannelId, seoPath)
    ensures SortsBefore(q, r) <==> q.salesChannelId == Some(salesChannelId) && r.salesChannelId.None?
  {
    LexLessIrreflexive(seoPath);
  }

  /** At most one valid row per language, sales channel (or NULL) and SEO path. */
  predicate UniqueSeoPaths(table: Table) {
    forall q, r | q in table && r in table ::
      (q.isValid && r.isValid && q.languageId == r.languageId
       && q.salesChannelId == r.salesChannelId && q.seoPathInfo == r.seoPathInfo) ==> q == r
  }

  /**
   * At most one valid canonical row per language, concrete sales channel and route. Rows with
   * a NULL channel are not constrained: the redirect lookup never reads them.
   */
  predicate UniqueCanonicals(table: Table) {
    forall q, r | q in table && r in table ::
      (q.salesChannelId.Some? && q.isValid && r.isValid && q.isCanonical && r.isCanonical
       && q.languageId == r.languageId && q.salesChannelId == r.salesChannelId && q.pathInfo == r.pathInfo) ==> q == r
  }

  /** Without ties in the table, any two admissible answers of the primary query are equal. */
  lemma PrimaryAnswerUnique(table: Table, languageId: Bytes, salesChannelId: Bytes, seoPath: string, a1: Option<SeoUrlRecord>, a2: Option<SeoUrlRecord>)
    requires UniqueSeoPaths(table)
    requires PrimaryAnswer(table, languageId, salesChannelId, seoPath, a1)
    requires PrimaryAnswer(table, languageId, salesChannelId, seoPath, a2)
    ensures a1 == a2
  {
    if a1.Some? {
      assert a2.Some?;
      PrimaryOrder(a1.value, a2.value, languageId, salesChannelId, seoPath);
      PrimaryOrder(a2.value, a1.value, languageId, salesChannelId, seoPath);
    }
  }

  /** Without two valid canonical rows for one language, concrete channel and route, any two admissible answers of the redirect query are equal. */
  lemma RedirectAnswerUnique(table: Table, languageId: Bytes, salesChannelId: Bytes, excludedId: Bytes, pathInfo: string, a1: Option<SeoUrlRecord>, a2: Option<SeoUrlRecord>)
    requires UniqueCanonicals(table)
    requires RedirectAnswer(table, languageId, salesChannelId, excludedId, pathInfo, a1)
    requires RedirectAnswer(table, languageId, salesChannelId, excludedId, pathInfo, a2)
    ensures a1 == a2
  {
    if a1.Some? {
      assert a2.Some?;
    }
  }

  /** A scan in storage order: the first row of `rows` that satisfies `p`, if any. */
  function FirstWhere(rows: Table, p: SeoUrlRecord -> bool): (found: Option<SeoUrlRecord>)
    ensures found.Some? ==> found.value in rows && p(found.value)
    ensures found.None? ==> forall q | q in rows :: !p(q)
  {
    if rows == [] then None
    else if p(rows[0]) then Some(rows[0])
    else FirstWhere(rows[1..], p)
  }

  /**
   * One engine's answer to the primary query: the first channel-specific match in storage
   * order, otherwise the first NULL-channel match.
   */
  function PrimaryQuery(table: Table, languageId: Bytes, salesChannelId: Bytes, seoPath: string): (answer: Option<SeoUrlRecord>)
    ensures PrimaryAnswer(table, languageId, salesChannelId, seoPath, answer)
  {
    var specific := FirstWhere(table, q => PrimaryFilter(q, languageId, salesChannelId, seoPath) && q.salesChannelId.Some?);
    LexLessIrreflexive(seoPath);
    if specific.Some? then specific
    else FirstWhere(table, q => PrimaryFilter(q, languageId, salesChannelId, seoPath))
  }

  /** One engine's answer to the redirect query: the first passing row in storage order. */
  function RedirectQuery(table: Table, languageId: Bytes, salesChannelId: Bytes, excludedId: Bytes, pathInfo: string): (answer: Option<SeoUrlRecord>)
    ensures RedirectAnswer(table, languageId, salesChannelId, excludedId, pathInfo, answer)
  {
    FirstWhere(table, q => RedirectFilter(q, languageId, salesChannelId, excludedId, pathInfo))
  }
}
