# RSS catalog and YouTube link helpers, modelled in Dafny

This project models two command modules of a personal command-line toolbox.

**`rss` (commands/rss.js).** This is a local catalog of RSS feeds kept in an SQLite file.
- The named-query registry `QUERIES` turns an operation name and its arguments into SQL text. It is modelled in `Queries` as templates made of literal pieces and argument holes.
- The effect of each query on the catalog is the pure function `Catalog.Step`. The catalog value holds:
  - the set of tables;
  - the `feeds` rows in rowid order;
  - the next row id;
  - an abstract clock for `CURRENT_TIMESTAMP`.
- Running a query may fail. The engine's verdict is a parameter `rejects`, a predicate on the query issued. A failing query leaves the catalog unchanged. A statement on `feeds` also fails while that table does not exist.
- The database handle is the class `Rss.Database`:
  - its fields are changed in place by `Exec` (the `db.exec` of the source);
  - it counts the `close()` calls made on it;
  - it records the query texts handed to the engine.
- The helpers are methods over a `Database`: `createTablesIfMissing`, `seedEmptyFeedsTable` (a loop over the default list), `listFeeds`, `addFeed`, `removeFeed`, `subscribeToFeed` and `unsubscribeToFeed`.
  - Each method is proved against a pure function of the catalog: `EnsureSchema`, `Seed`/`SeedFrom`, `Listing`, `AddLink` and `Step`.
  - The dispatcher `rss` is proved against `Rss.Run`.
- The properties are lemmas about those functions (modules `CatalogProperties` and `RssProperties`):
  - what each command does to the rows;
  - which rows seeding appends, and in what order;
  - schema-ensure is idempotent;
  - `close` runs exactly once unless schema-ensure throws;
  - every operation preserves the store invariant (ids increasing and fresh, timestamps in the past).

**`yt-download` (commands/yt-download.js).** Module `YtDownload` models three pure pieces:
- `buildLink`;
- `buildOutput`, with the regular expression `/v=(.*)$/` given JavaScript semantics (leftmost match; `.` does not match a line terminator);
- the `||` precedence that chooses the output file name and directory.

The round trip `buildOutput(buildLink(id)) == id + ".flv"` is proved, with the conditions under which it holds.

Shared pieces:
- `Strings`: substring containment, and JavaScript's `trim` over the full ECMAScript set of white-space and line-terminator characters.
- `Wrappers`: `Option` and `Result`.

The model follows four behaviours of the code that a reader may not expect:
- `removeFeed` matches on the link only (commands/rss.js:47), whereas the two update queries match on the link or the title. The usage text describes `--remove LINK` as "Add a new RSS feed." (commands/rss.js:183); the code removes.
- `unsubscribeToFeed` issues the `subscribeFeed` query (commands/rss.js:157), against its name. Unsubscribing therefore sets `subscribed_at` instead of clearing it (`RssProperties.UnsubscribeCommandSubscribes`).
- `createTablesIfMissing` runs outside the `try` of `rss`. When it throws, `close()` is not called (`RssProperties.RunClosesOnce`).
- Seeding runs only when the table is empty. There is no de-duplication of entries.

## Model

| member | source | states |
|---|---|---|
| `Queries.LookupName` | commands/rss.js:30-79 | the registry maps each of its eight keys to exactly one operation and back |
| `Queries.RenderAppend` | commands/rss.js:30-79 | rendering a template literal distributes over concatenation of its pieces |
| `Queries.RenderAgrees` | commands/rss.js:30-79 | a template's text depends only on the arguments at its holes |
| `Queries.ExtraArgumentsIgnored` | commands/rss.js:49-78 | arguments beyond those a template's arrow function declares do not change the text |
| `Queries.DeleteFeedText` | commands/rss.js:46-48 | `deleteFeed(s)` is fixed text with `s` placed between `'%` and `%'` |
| `Queries.DeleteFeedInjective` | commands/rss.js:46-48 | different patterns give different `deleteFeed` texts |
| `Queries.InsertFeedText` | commands/rss.js:43-45 | `insertFeed(t, l)` places `t`, then `l`, each inside single quotes, in that order |
| `Queries.UpdateFeedTexts` | commands/rss.js:31-42 | both update queries place the pattern twice, once for `link` and once for `title` |
| `Queries.UpdateQueriesDiffer` | commands/rss.js:31-42 | `subscribeFeed(s)` and `unsubscribeFeed(s)` are different texts for every `s` |
| `Queries.HasTableText` | commands/rss.js:73-78 | `hasTable(n)` places `n` inside `name='…'` |
| `Catalog.Step` | commands/rss.js:30-79 | a failing query leaves the catalog unchanged; no query drops a table, and only `feeds` and `articles` are ever created |
| `Catalog.Exec` | commands/rss.js:86-91 | an unregistered name throws `UnknownOperation` and changes nothing; a failure changes nothing |
| `CatalogProperties.KeepMembers` | commands/rss.js:46-48 | a row survives `deleteFeed(p)` exactly when its link does not contain `p`; the title is not consulted |
| `CatalogProperties.KeepAllIffNoMatch` | commands/rss.js:46-48 | deleting keeps every row exactly when no link contains the pattern, so zero matches is a no-op |
| `CatalogProperties.KeepEmptyPattern` | commands/rss.js:47 | `LIKE '%%'` matches every link, so the empty pattern deletes every row |
| `CatalogProperties.KeepIdsIncrease` | commands/rss.js:46-48 | deleting keeps the ids of the remaining rows strictly increasing |
| `CatalogProperties.RemoveEffect` | commands/rss.js:139-145 | remove succeeds iff `feeds` exists and the query is accepted; then the link-matching rows are gone and nothing else changes; on failure nothing changes |
| `CatalogProperties.SubscribeEffect` | commands/rss.js:31-36 | subscribe stamps exactly the rows whose link or title contains the pattern; count, ids, titles, links and creation times are unchanged |
| `CatalogProperties.UnsubscribeQueryEffect` | commands/rss.js:37-42 | the registered `unsubscribeFeed` would clear `subscribed_at` on exactly the matching rows |
| `CatalogProperties.InsertEffect` | commands/rss.js:43-45 | an accepted insert appends one unsubscribed row with a fresh id and the current time |
| `CatalogProperties.AddFeedEffect` | commands/rss.js:128-137 | add appends at most one row, holding the fetched title and link trimmed, with a fresh id and no subscription; a failed fetch, a missing field or a failed insert changes nothing |
| `CatalogProperties.StepPreservesInv` | commands/rss.js:53-59 | every query keeps ids strictly increasing and below the next id, and timestamps before the clock |
| `CatalogProperties.SchemaEnsured` | commands/rss.js:85-92 | schema-ensure touches no rows, creates only `feeds` and `articles`, and when it returns both exist |
| `CatalogProperties.EnsureSchemaIdempotent` | commands/rss.js:85-92 | a second schema-ensure after a successful one succeeds and changes nothing |
| `CatalogProperties.EnsureSchemaPreservesInv` | commands/rss.js:85-92 | schema-ensure keeps the store invariant |
| `CatalogProperties.TryInsertEffect` | commands/rss.js:100-104 | one seeding step appends the entry's trimmed fetched pair exactly when it is admitted |
| `CatalogProperties.SeedFromAppends` | commands/rss.js:99-108 | the seeding loop appends one fresh row per admitted entry, in list order; failing entries are skipped and the loop goes on |
| `CatalogProperties.SeedEffect` | commands/rss.js:94-110 | seeding leaves a non-empty catalog unchanged, throws only a failed select, and on an empty catalog appends exactly the admitted entries |
| `CatalogProperties.SeedIdempotent` | commands/rss.js:96-98 | once a seeding has left at least one row, any later seeding, with any default list and any fetch results, inserts nothing |
| `CatalogProperties.SeedRetriesWhileEmpty` | commands/rss.js:96-108 | a seeding that leaves the table empty leaves the catalog as it was, so a later seeding appends exactly the entries its own fetches admit |
| `CatalogProperties.SeedPreservesInv` | commands/rss.js:94-110 | seeding keeps the store invariant |
| `Rss.Database.constructor` | commands/rss.js:199 | the handle opens on the persisted catalog, with nothing closed and nothing sent |
| `Rss.Database.Exec` | commands/rss.js:86 | `db.exec` changes the handle's state to the catalog function's result, records the text sent, and never closes |
| `Rss.Database.ExecOp` | commands/rss.js:30-79 | executing a registered operation by its name runs `Step` on it and sends its rendered text |
| `Rss.Database.Close` | commands/rss.js:227 | `close()` adds one to the close count and changes nothing else |
| `Rss.FlagValue` | commands/rss.js:211 | a flag's value is absent exactly when no flag has that key, and is otherwise the value of a flag with that key |
| `Rss.FlagArgs` | commands/rss.js:141 | an absent flag reaches the template as the text "undefined" |
| `Rss.ParseCommand` | commands/rss.js:163-171 | no flags gives the default; otherwise the first flag's key, whose value is that flag's |
| `Rss.SelectCommand` | commands/rss.js:202 | a non-empty explicit command wins; otherwise the first flag's key; with no command and no flags the command is `list` |
| `Rss.CreateTablesIfMissing` | commands/rss.js:85-92 | probes and creates the two tables in place, as `EnsureSchema` specifies, throwing the first failure; it sends exactly the texts `SchemaSent` lists |
| `Rss.InsertFetched` | commands/rss.js:100-104 | one fetch and insert of the trimmed pair, every failure caught; the insert text is sent only when the fetch yields a title and a link |
| `Rss.SeedEmptyFeedsTable` | commands/rss.js:94-110 | the select-then-loop leaves the catalog as `Seed` specifies (loop invariant: the rest of the loop yields the same final catalog); it sends the select, then one insert per fetched entry in list order |
| `Rss.ListFeeds` | commands/rss.js:112-126 | changes nothing, sends only the select, and returns the lines `Listing` gives |
| `Rss.AddFeed` | commands/rss.js:128-137 | leaves the catalog as `AddLink` specifies and sends nothing for an absent link |
| `Rss.RemoveFeed` | commands/rss.js:139-145 | runs `deleteFeed` with the flag's value and sends its text; failures are caught |
| `Rss.SubscribeToFeed` | commands/rss.js:147-153 | runs `subscribeFeed` with the flag's value and sends its text |
| `Rss.UnsubscribeToFeed` | commands/rss.js:155-161 | runs and sends `subscribeFeed`, as written |
| `Rss.Rss` | commands/rss.js:196-229 | the dispatcher leaves the catalog, error, output and close count that `Run` gives, and sends the texts `RunSent` lists, in order |
| `RssProperties.FeedLinesShape` | commands/rss.js:117-122 | three lines per row: indented title, indented link, blank |
| `RssProperties.ListingShape` | commands/rss.js:112-126 | a failing select prints nothing; otherwise a blank line, then three lines per catalog row, in row order |
| `RssProperties.DispatchKeepsTables` | commands/rss.js:208-218 | no sub-command creates or drops a table |
| `RssProperties.DispatchPreservesInv` | commands/rss.js:208-218 | every sub-command keeps the store invariant |
| `RssProperties.RunClosesOnce` | commands/rss.js:196-229 | `close` runs exactly when schema-ensure returned, whatever happens after; the call throws exactly schema-ensure's error; after a closing run both tables exist |
| `RssProperties.RunPreservesInv` | commands/rss.js:196-229 | a whole run keeps the store invariant |
| `RssProperties.UnsubscribeCommandSubscribes` | commands/rss.js:155-161 | `unsubscribe` has the effect of `subscribe` with the same link, so it never clears a subscription |
| `RssProperties.DefaultCommandLists` | commands/rss.js:202-209 | with no command and no flags, a run prints a blank line and then the seeded catalog's title, link and blank line per row |
| `RssProperties.SchemaProbesOnly` | commands/rss.js:85-92 | with both tables present and both probes accepted, schema-ensure sends the two probes and nothing else and changes nothing, whatever the engine says of the creates |
| `RssProperties.SchemaCreatesFeedsWhenMissing` | commands/rss.js:87-88 | after an accepted `feeds` probe the next text sent is the `feeds` create exactly when that table is missing, else the `articles` probe |
| `Strings.TrimStart` | commands/rss.js:104 | drops exactly the leading white space: the result is a suffix, the dropped part is white space, and the result does not start with white space |
| `Strings.TrimEnd` | commands/rss.js:104 | the same at the end |
| `Strings.TrimShape` | commands/rss.js:104 | `trim` keeps a contiguous part of its input that neither starts nor ends with white space |
| `Strings.TrimIdempotent` | commands/rss.js:104 | trimming twice is trimming once |
| `YtDownload.BuildLink` | commands/yt-download.js:25-31 | the result always contains "youtube.com" and ends with the input |
| `YtDownload.BuildLinkCases` | commands/yt-download.js:25-31 | a text containing "youtube.com" is returned unchanged, anything else gets the watch prefix; a built link is kept |
| `YtDownload.FirstMatch` | commands/yt-download.js:34 | finds the leftmost start where `/v=(.*)$/` matches, or reports that none exists |
| `YtDownload.BuildOutput` | commands/yt-download.js:33-35 | fails exactly when the expression matches nowhere; otherwise the capture after the leftmost matching "v=" followed by ".flv" |
| `YtDownload.NoVNoOutput` | commands/yt-download.js:34 | a link without "v=" makes `buildOutput` throw |
| `YtDownload.WatchPrefixShape` | commands/yt-download.js:30 | the watch prefix is 32 characters long and its only "v=" is at its end |
| `YtDownload.OutputOfBuiltLink` | commands/yt-download.js:25-35 | round trip: `buildOutput(buildLink(id)) == id + ".flv"` for an id without "youtube.com" and without a line terminator |
| `YtDownload.OutputName` | commands/yt-download.js:73 | the option wins if truthy, then the flag if truthy, then `buildOutput(link)`; the name is never empty, and is missing only when all three fail |
| `YtDownload.OutputDir` | commands/yt-download.js:74 | the option wins if truthy, else a given flag, else "."; the directory is empty only for an explicitly empty flag |
| `YtDownload.Prepare` | commands/yt-download.js:70-74 | the link is `buildLink` of the truthy argument, else of the second command-line word; the directory is `OutputDir` and the name `OutputName` of that link; a plan exists exactly when such a word exists and `OutputName` succeeds; the link mentions YouTube and the name is non-empty |
| `YtDownload.DefaultPlan` | commands/yt-download.js:46-47 | with no options or flags, a bare id downloads to `<id>.flv` in "." from its watch link |

## Left out

- The SQLite engine and the `helpers/Database` class are not part of this model. Several engine behaviours are therefore not modelled:
  - SQL parsing;
  - `LIKE`'s ASCII case folding and its reading of `%` and `_` in the argument as wildcards (matching is plain substring containment);
  - quote injection through interpolated arguments;
  - the rejection of `UPDATE TABLE feeds`.

  The predicate `rejects` stands for all of these. It decides which queries the engine throws on, without saying which.
- `rejects` judges the operation and its arguments, not the rendered text. The text each query sends is modelled separately (`Queries.Text`, recorded by `Database.ExecOp`).
- `rejects` is a fixed verdict per query. Transient failures, such as a locked database, are not modelled; `CatalogProperties.EnsureSchemaIdempotent` relies on the same query getting the same verdict twice.
- Row ids come from a counter. SQLite's reuse of the largest rowid after that row is deleted is not modelled.
- `CURRENT_TIMESTAMP` is an abstract clock. It advances once per successful statement that writes rows.
- The `articles` table exists or does not. Its columns and foreign-key cascade are not modelled, since no operation uses them.
- Fetching a feed (`rss-parser`, its timeout and User-Agent header, the unused `CORS_PROXY`) is a function parameter `parseUrl`. It returns a title and a link, or fails; an empty string stands for a missing field.
- The bundled `rss_feeds.json` is a parameter. Only each entry's link is used.
- `meow` argument parsing and `showHelp` are not modelled. The parsed flags are a parameter, a sequence of key/value pairs in key order.
- Console and error output are not modelled: `chalk` colours, `console.error` of caught errors, and the output of `listFeeds`, which is returned as lines without colours.
- `DB_PATH` and `process.env.HOME` are not modelled. The database is opened on a given catalog value.
- `async`/`await` are not modelled. Execution is sequential, so every call completes before the next.
- The download itself (commands/yt-download.js:78-118) is not modelled: the `ytdl-core` stream, its event handlers, the file pipe, cursor control, and the floating-point progress, size and time arithmetic.
- `path.join` (commands/yt-download.js:75) is a library call. The model returns the directory and the file name separately.
- JavaScript strings are sequences of UTF-16 code units, while a Dafny `string` holds Unicode scalar values. A lone surrogate cannot be written, so texts holding one are not modelled.
