# SEO path resolution, modelled in Dafny

This project models `SeoResolver::resolveSeoPath` from the Shopware storefront. The method
takes a language id, a sales-channel id and a requested URL path. It looks the path up in
the `seo_url` table and returns the route information the storefront should dispatch to:

1. Every leading `/` is removed (`ltrim`). If nothing is left, the answer is the root
   result `{pathInfo: "/", isCanonical: false}` and no query runs.
2. The primary query looks for a valid row with the same language, the given sales channel
   or NULL, and exactly this SEO path. It orders by `seo_path_info`, then by
   `sales_channel_id IS NULL`, so a channel-specific row comes before a global one. It keeps
   one row. If no row matches, a record `{pathInfo: <stripped request>, isCanonical: false}`
   with no id is used instead.
3. If that hit is not canonical, the redirect query looks for a valid canonical row with
   the same language, exactly the same sales channel, another id (`''` for the synthesised
   record), and the route `'/' . trim(hit.pathInfo, '/')`. If one exists,
   `'/' . trim(row.seoPathInfo, '/')` becomes `canonicalPathInfo`.
4. `pathInfo` is rewritten to `'/' . trim(pathInfo, '/') . '/'`.

Files:

- `wrappers.dfy` holds `Option`. It stands for SQL NULL, an absent array key and an empty
  query result.
- `php_trim.dfy` holds PHP's `ltrim`, `rtrim` and `trim` with the character mask `'/'`. Each
  removes the whole run of slashes at its end(s). Each is characterised by lemmas that fix
  its result.
- `seo_url.dfy` holds the `seo_url` row and the two queries. Each query's WHERE clause is a
  predicate. Each query's admissible answers with `LIMIT 1` form a predicate:
  `PrimaryAnswer` and `RedirectAnswer`. One engine, which scans the table in storage order,
  is proved to return an admissible answer.
- `seo_resolver.dfy` holds the method. The results it may return are given as a relation,
  `IsResolution`, with its properties. `ResolveSeoPath` is proved to be one such result.
- `seo_resolver_examples.dfy` holds small tables. Each is stated for any alias, target and
  route, and for each the lemma gives every result the method may return.

SQL leaves the order of rows tied after ORDER BY unspecified, and the redirect query has no
ORDER BY at all. So the model does not fix a choice. `IsResolution(table, lang, channel,
path, r)` holds for every `r` that some order of the rows could produce, and each property
is proved for every such `r`. On a table with no ties (`UniqueSeoPaths` and `UniqueCanonicals`),
`Deterministic` shows that exactly one result is left.

Some of the code's behaviour may surprise a reader, and the model keeps it as written:

- The code removes every leading slash (`ltrim`), not only one.
- `canonicalPathInfo` is `'/' . trim(seoPathInfo, '/')`, with no trailing slash.
- A canonical row whose sales channel is NULL is never a redirect target, because
  `sales_channel_id = :sales_channel_id` is never true of NULL.
  `SeoResolverExamples.GlobalCanonicalIsNoRedirectTarget` shows this for an alias and a
  global canonical row.
- The synthesised fallback record still takes part in the redirect lookup, with id `''`.
  A request for a technical route with no SEO row of its own therefore gets that route's
  canonical SEO path (`SeoResolverExamples.UnmatchedRouteFindsCanonical`).

## Model

| member | source | states |
|---|---|---|
| `PhpTrim.LTrimSlashes` | src/Storefront/Framework/Seo/SeoResolver.php:22 | the input is a run of slashes followed by the result, and the result does not start with a slash |
| `PhpTrim.TrimSlashes` | src/Storefront/Framework/Seo/SeoResolver.php:69 | the input is the run of slashes `ltrim` removes, then the result, then a run of slashes; the result has no slash at either end |
| `PhpTrim.RTrimSlashes` | src/Storefront/Framework/Seo/SeoResolver.php:69 | the right half of `trim`: the input is the result followed by a run of slashes, and the result does not end with a slash |
| `PhpTrim.LTrimSlashesOf` | src/Storefront/Framework/Seo/SeoResolver.php:22 | for any number of slashes followed by a string not starting with one, `ltrim` returns exactly that string |
| `PhpTrim.LTrimSlashesEmpty` | src/Storefront/Framework/Seo/SeoResolver.php:22-23 | `ltrim` leaves the empty string exactly when the input consists of slashes only |
| `PhpTrim.LTrimSlashesIgnoresLeadingSlashes` | src/Storefront/Framework/Seo/SeoResolver.php:22 | extra leading slashes never change what `ltrim` returns |
| `PhpTrim.RTrimSlashesOf` | src/Storefront/Framework/Seo/SeoResolver.php:69 | a string not ending with a slash, followed by any run of slashes, comes back from the right-hand trim unchanged |
| `PhpTrim.TrimSlashesOf` | src/Storefront/Framework/Seo/SeoResolver.php:69 | slashes, a string with no slash at either end, then slashes: `trim` returns exactly that string |
| `PhpTrim.TrimSlashesIdempotent` | src/Storefront/Framework/Seo/SeoResolver.php:69 | trimming twice is trimming once |
| `PhpTrim.TrimSlashesOfWrapped` | src/Storefront/Framework/Seo/SeoResolver.php:61-69 | trimming `'/' . trim(s) . '/'` or `'/' . trim(s)` gives `trim(s)` back, so the redirect key and the final `pathInfo` agree |
| `SeoUrl.PrimaryFilter` | src/Storefront/Framework/Seo/SeoResolver.php:30-33 | the primary WHERE clause admits a row of the given language whose channel is the given one or NULL (`= :x OR IS NULL`), whose SEO path is exactly the stripped request and which is valid |
| `SeoUrl.SortsBefore` | src/Storefront/Framework/Seo/SeoResolver.php:34-35 | one row sorts strictly before another when its SEO path is lexicographically smaller, or the paths are equal and its channel is concrete while the other's is NULL |
| `SeoUrl.PrimaryAnswer` | src/Storefront/Framework/Seo/SeoResolver.php:34-36 | the primary query with LIMIT 1 may return nothing exactly when no row passes the filter, and otherwise any passing row that no passing row sorts before; tied rows are all admissible |
| `SeoUrl.RedirectFilter` | src/Storefront/Framework/Seo/SeoResolver.php:51-56 | the redirect WHERE clause admits a row of the given language whose channel is exactly the given one (plain `= :x`, never NULL), whose id differs from the excluded one, whose route is the given one, and which is valid and canonical |
| `SeoUrl.RedirectAnswer` | src/Storefront/Framework/Seo/SeoResolver.php:57 | the redirect query with LIMIT 1 and no ORDER BY may return nothing exactly when no row passes its filter, and otherwise any row that does |
| `SeoUrl.ValidRows` | src/Storefront/Framework/Seo/SeoResolver.php:33 | a row is in the result exactly when it is in the table and valid |
| `SeoUrl.AnswersOnValidRows` | src/Storefront/Framework/Seo/SeoResolver.php:30-56 | both queries admit the same answers on the table and on its valid rows alone |
| `SeoUrl.LexLessIrreflexive` | src/Storefront/Framework/Seo/SeoResolver.php:34 | no SEO path sorts strictly before itself under the first ORDER BY key |
| `SeoUrl.PrimaryOrder` | src/Storefront/Framework/Seo/SeoResolver.php:30-35 | between two rows that pass the primary filter, one sorts first exactly when it has the concrete sales channel and the other is NULL |
| `SeoUrl.UniqueSeoPaths` | src/Storefront/Framework/Seo/SeoResolver.php:30-36 | no two distinct valid rows share language, sales channel (a concrete one or NULL) and SEO path: the primary query's ORDER BY then leaves no tie |
| `SeoUrl.UniqueCanonicals` | src/Storefront/Framework/Seo/SeoResolver.php:51-57 | no two distinct valid canonical rows share language, concrete sales channel and route; NULL-channel rows are free, because the redirect lookup never reads them |
| `SeoUrl.PrimaryAnswerUnique` | src/Storefront/Framework/Seo/SeoResolver.php:27-41 | with at most one valid row per language, channel and SEO path, any two admissible answers of the primary query are equal (`SeoUrl.PrimaryQuery` shows that one exists) |
| `SeoUrl.RedirectAnswerUnique` | src/Storefront/Framework/Seo/SeoResolver.php:48-63 | with at most one valid canonical row per language, concrete channel and route, any two admissible answers of the redirect query are equal (`SeoUrl.RedirectQuery` shows that one exists) |
| `SeoUrl.FirstWhere` | src/Storefront/Framework/Seo/SeoResolver.php:36 | a found row is in the table and satisfies the condition; nothing is found only when no row satisfies it |
| `SeoUrl.PrimaryQuery` | src/Storefront/Framework/Seo/SeoResolver.php:27-41 | the engine's answer is admissible: nothing only when no row matches; otherwise a matching row that no other matching row sorts before |
| `SeoUrl.RedirectQuery` | src/Storefront/Framework/Seo/SeoResolver.php:48-63 | the engine's answer is admissible: nothing only when no row passes the redirect filter; otherwise such a row |
| `SeoResolver.RootResolution` | src/Storefront/Framework/Seo/SeoResolver.php:24 | the root result: no id, `pathInfo` `/`, not canonical, no `canonicalPathInfo` |
| `SeoResolver.HitOf` | src/Storefront/Framework/Seo/SeoResolver.php:43-45 | the primary hit is the fetched row's id, route and canonical flag, or, when nothing was fetched, the stripped request with no id and not canonical |
| `SeoResolver.ExcludedId` | src/Storefront/Framework/Seo/SeoResolver.php:60 | the id bound to `:id` is the hit's id, or `''` when the hit has none |
| `SeoResolver.SlashPrefixed` | src/Storefront/Framework/Seo/SeoResolver.php:61-65 | the route key and `canonicalPathInfo` are `'/'` followed by the slash-trimmed string |
| `SeoResolver.SlashWrapped` | src/Storefront/Framework/Seo/SeoResolver.php:69 | the returned `pathInfo` is the slash-trimmed route between two slashes |
| `SeoResolver.Assemble` | src/Storefront/Framework/Seo/SeoResolver.php:64-71 | the returned array has the hit's id and canonical flag, the wrapped route, and `canonicalPathInfo` only when the redirect lookup found a row |
| `SeoResolver.Run` | src/Storefront/Framework/Seo/SeoResolver.php:27-69 | one admissible run past the root check: an admissible primary answer, the redirect lookup only for a non-canonical hit (with its excluded id and route key) and an admissible answer of it, and the array assembled from the two |
| `SeoResolver.IsResolution` | src/Storefront/Framework/Seo/SeoResolver.php:20-72 | the results the method may return: the root result when `ltrim` leaves nothing, otherwise the result of some admissible run |
| `SeoResolver.ResolveSeoPath` | src/Storefront/Framework/Seo/SeoResolver.php:20-72 | the method's result on a table is one of the admissible results `IsResolution` describes |
| `SeoResolver.RootResult` | src/Storefront/Framework/Seo/SeoResolver.php:22-25 | the result is `{pathInfo: "/", isCanonical: false}` with no id and no `canonicalPathInfo` exactly when the request is only slashes, whatever the table holds |
| `SeoResolver.LeadingSlashesIgnored` | src/Storefront/Framework/Seo/SeoResolver.php:22 | a request with extra leading slashes admits the same results and the engine returns the same result |
| `SeoResolver.PrimaryOrFallback` | src/Storefront/Framework/Seo/SeoResolver.php:27-45 | if some row has the language, the given or NULL channel, the stripped path and is valid, the result carries such a row's id, wrapped route and canonical flag; otherwise it has no id, is not canonical and its `pathInfo` is the stripped request wrapped in slashes |
| `SeoResolver.RunOnValidRows` | src/Storefront/Framework/Seo/SeoResolver.php:30-56 | one run of the method is admissible on the table exactly when it is admissible on the valid rows alone |
| `SeoResolver.InvalidRowsIgnored` | src/Storefront/Framework/Seo/SeoResolver.php:30-56 | deleting every `is_valid = 0` row leaves the admissible results unchanged |
| `SeoResolver.ChannelSpecificWins` | src/Storefront/Framework/Seo/SeoResolver.php:31-36 | when a row for the concrete channel matches, the result comes from such a row, even if global rows match too and whatever the storage order |
| `SeoResolver.CanonicalHasNoRedirect` | src/Storefront/Framework/Seo/SeoResolver.php:47-67 | a canonical result never carries `canonicalPathInfo` |
| `SeoResolver.RedirectTarget` | src/Storefront/Framework/Seo/SeoResolver.php:47-66 | a non-canonical result has `canonicalPathInfo` exactly when some valid canonical row has the language, exactly the given channel, an id other than the result's (or `''`) and the route `'/' . trim(pathInfo)`; it then equals `'/' . trim` of such a row's SEO path |
| `SeoResolver.ResultShape` | src/Storefront/Framework/Seo/SeoResolver.php:61-69 | `pathInfo` starts and ends with a slash and its interior has no slash at either end; it is `/` exactly for the root result; `canonicalPathInfo` is a slash and a string with no slash at either end |
| `SeoResolver.Deterministic` | src/Storefront/Framework/Seo/SeoResolver.php:27-63 | with at most one valid row per language, channel or NULL and SEO path, and at most one valid canonical row per language, concrete channel and route, any two admissible results are equal |
| `SeoResolverExamples.GlobalCanonicalIsNoRedirectTarget` | src/Storefront/Framework/Seo/SeoResolver.php:52 | an alias with a NULL-channel canonical row for the same route resolves to the alias's route with no `canonicalPathInfo` |
| `SeoResolverExamples.ChannelCanonicalIsRedirectTarget` | src/Storefront/Framework/Seo/SeoResolver.php:47-66 | the same alias with a channel-specific canonical row gets `canonicalPathInfo` `'/' . target`, with no trailing slash |
| `SeoResolverExamples.UnknownPathPassesThrough` | src/Storefront/Framework/Seo/SeoResolver.php:43-45 | on an empty table, the only result is the request wrapped in slashes, not canonical |
| `SeoResolverExamples.InvalidRowIsAbsent` | src/Storefront/Framework/Seo/SeoResolver.php:33 | a matching but invalid row gives the same result as an empty table |
| `SeoResolverExamples.UnmatchedRouteFindsCanonical` | src/Storefront/Framework/Seo/SeoResolver.php:43-66 | a request for a route that has no SEO row of its own gets the route's channel-specific canonical SEO path |
| `SeoResolverExamples.TiedRowsEitherMayWin` | src/Storefront/Framework/Seo/SeoResolver.php:34-36 | with two valid rows for the same channel and SEO path, the admissible results are exactly the two built from either row's id and route |

## Left out

- The Doctrine DBAL connection, the query builder and `execute()`/`fetch()` are not modelled.
  Each query is a predicate over an in-memory sequence of rows. A failing or unreachable
  database is not modelled.
- `Uuid::fromHexToBytes` is not modelled. Language, sales-channel and row ids are opaque
  byte strings that are only compared for equality. Malformed hex input is not modelled.
- Database collation is not modelled. `seo_path_info = :seoPath` and `path_info = :pathInfo`
  are exact string equality, and the first ORDER BY key is code-point order. A
  case-insensitive collation, or one that ignores trailing spaces, would match more rows.
- SQL's three-valued logic is not modelled beyond the two cases the code relies on.
  `= :x OR IS NULL` admits NULL; plain `= :x` never matches NULL.
- `is_canonical` is a boolean. The string or integer the driver returns is not modelled.
- Strings are sequences of characters, not of bytes. `/` is ASCII and never occurs inside a
  multi-byte UTF-8 sequence, so PHP's byte-wise trims agree with the model.
- The constructor and the stored `$connection` are left out; the table is passed to every
  call instead.
