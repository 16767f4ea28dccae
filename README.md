# SIStorage core, modelled in Dafny

SIStorage is the package catalog of the SIGame quiz. This project models four pieces of its service:

- **The random package generator** (`RandomPackageGenerator.GeneratePackageAsync`). It composes a new package of `RoundCount` standard rounds and one final round, using themes drawn at random from the catalog's packages. It rejects a theme whose name was already used. It re-prices every question by position and resolves or inherits the authors and sources. It copies the non-text media and logs every placed theme in the package comment. Source documents are opened once, cached, and all released at the end.
- **The package search** (`PackagesService.GetPackagesAsync` and `BuildDifficultyPredicate`). Tag, difficulty, restriction, author, publisher, language and text filters are applied in turn. The rows are then sorted and a page is taken, and the total counts every matching row.
- **The other operations of `PackagesService`.** `GetPackageAsync` looks up one package. `IncrementDownloadCountAsync` is the download counter. `AddPackageAsync` files an indexed package together with its dictionary rows and link rows.
- **The package indexer** (`PackageIndexer.IndexPackage`). One walk over an uploaded package produces a summary of round and theme names, the question count and a histogram of the non-text content types.
- **The facet queries** (`FacetsService`). These are the publishers, authors, tags, restrictions and languages that at least one package refers to, optionally limited to one language. They are checked against the component-test fixture.

## Modules

| file | module | contents |
|---|---|---|
| `wrappers.dfy` | `Wrappers` | `Option`, `Result` |
| `clr.dfy` | `Clr` | .NET semantics: unchecked `short`/`int` casts, `int.ToString()`, `string.IsNullOrEmpty`/`IsNullOrWhiteSpace`/`Contains` |
| `sequences.dfy` | `Sequences` | LINQ `Where`, `Any`, `Skip`, `Take`, a stable `OrderBy`, distinctness |
| `documents.dfy` | `Documents` | the SIPackages document tree, the opened source document and the target document |
| `catalog.dfy` | `Catalog` | the database rows: packages, dictionaries, link tables |
| `generator.dfy` | `RandomPackageGenerator` | the generator; class `Generation` holds the state of one call |
| `indexer.dfy` | `PackageIndexer` | `IndexPackage` as nested loops over the document |
| `packages_service.dfy` | `PackagesService` | the search as filter stages, plus class `PackagesService` holding the tables |
| `facets_service.dfy` | `FacetsService` | the five facet queries and the fixture scenarios |

How each source file is modelled:

- **Generator.** The state of one `GeneratePackageAsync` call is a class whose fields are the method's locals: the seen-name set, the retry counter, the document cache, the target document and the comment buffer, whose chunks are kept as a sequence. Ghost fields record the provenance log, the openings, the disposals, the retries taken and the slots skipped. `Random.Shared` is an injected oracle `random: nat -> nat`, and the k-th draw of `Next(n)` is `random(k) % n`. The SIPackages calls are functions carried by the source document: `GetLink`, `GetRealAuthors`/`GetRealSources` and `TryGetMedia`. `provider.GetPackageAsync` is a function from ids to documents, `None` when opening throws. An exception that escapes an extraction is an explicit outcome `Threw(...)`.
- **Search.** The search is the pure function `Search`, with its filters as one predicate per stage. The method `PackagesService.GetPackages` applies the stages one after another, as the source reassigns its query. It is proved equal to `Search`, and `Search` is proved correct by `SearchPage` and `SearchOrder`.
- **Indexer.** The indexer keeps its three loops (rounds, themes, questions) plus the inner loop over content. Each is proved against a function of the content seen so far.
- **Facets.** Each facet query is a pure function: a `Where` over the dictionary rows.

Three behaviours of the code that are easy to misread:

- **Final round.** The final round's round index is drawn from the one-element slice `Rounds[^1..]` and then used on the full round list. The generator therefore always reads round 0 of the source package, not its last round (`ExtractTheme` ensures `selector == LastOnly ==> p.roundIndex == 0`).
- **Retry budget.** The budget test is a post-decrement, `retryCounter-- >= 0`. So 11 failed extractions retry their slot, not 10.
- **Question authors and sources.** These have no fallback: only links are resolved, in place. The theme → round → package chain applies to the theme's own lists only.

## Model

| member | source | states |
|---|---|---|
| Clr.Int16 | src/SIStorage.Service/Services/PackageIndexer.cs:37 | an unchecked `(short)` cast yields a value in [-32768, 32767] congruent to its argument modulo 2^16 |
| Clr.Int32 | src/SIStorage.Service/Helpers/RandomPackageGenerator.cs:164 | unchecked `int` arithmetic yields a value in the `int` range congruent to the exact result modulo 2^32 |
| Clr.Int16Increment | src/SIStorage.Service/Services/PackageIndexer.cs:36-37 | adding one to a counter read back from a `short` and casting again is the cast of the exact count plus one, so the stored counter tracks the exact count modulo 2^16 |
| Clr.Int32Add | src/SIStorage.Service/Services/PackageIndexer.cs:25 | `questionCount += n` on a wrapped `int` equals the wrap of the exact sum |
| Clr.Int16OfInt32 | src/SIStorage.Service/Services/PackageIndexer.cs:58 | casting the wrapped `int` question count to `short` equals casting the exact count |
| Clr.NatToString | src/SIStorage.Service/Helpers/RandomPackageGenerator.cs:53 | `(i + 1).ToString()` is a non-empty string of decimal digits |
| Clr.NatToStringInjective | src/SIStorage.Service/Helpers/RandomPackageGenerator.cs:53 | distinct round numbers print as distinct round names |
| Sequences.Where | src/SIStorage.Service/Services/FacetsService.cs:97-99 | a LINQ `where` keeps exactly the rows that satisfy the condition and adds none |
| Sequences.WhereWhere | src/SIStorage.Service/Services/PackagesService.cs:68-130 | filtering twice is filtering once by the conjunction, which is how the reassigned query composes its stages |
| Sequences.AnyExists | src/SIStorage.Service/Services/PackagesService.cs:74 | LINQ `Any` holds exactly when some row satisfies the condition |
| Sequences.SortByCorrect | src/SIStorage.Service/Services/PackagesService.cs:132-171 | `OrderBy`/`OrderByDescending` returns a permutation of its input, ordered by the key in the requested direction |
| PackagesService.BuildDifficultyPredicate | src/SIStorage.Service/Services/PackagesService.cs:235-268 | fails with `NoComparison` exactly when the mode sets none of the three flags; otherwise the folded expression accepts a difficulty exactly when one of the selected comparisons `<`, `=`, `>` with the value holds |
| PackagesService.CompareModeCombinations | src/SIStorage.Service.Contract/Requests/CompareMode.cs:7-23 | GreaterThan\|EqualTo means `>=`, LessThan\|EqualTo means `<=`, LessThan\|GreaterThan means `!=`, all three flags accept every value, and mode 0 or an unknown bit alone selects no comparison |
| PackagesService.LinkTestMeaning | src/SIStorage.Service/Services/PackagesService.cs:70-101 | a tag or restriction list that is null or empty imposes nothing; exactly `[-1]` keeps the packages with no link row; any other list (including `[-1, 3]`) keeps the packages with a link row to a listed id |
| PackagesService.MatchesMeaning | src/SIStorage.Service/Services/PackagesService.cs:70-130 | a row passes the search exactly when every present filter holds: the tag and restriction rules, the difficulty comparisons (a row without difficulty fails), an author link, publisher `-1` meaning no publisher and any other value an exact match, an exact language, and a substring of the name |
| PackagesService.LooserMatches | src/SIStorage.Service/Services/PackagesService.cs:68-130 | a row that passes a set of filters passes any set obtained by dropping some of them |
| PackagesService.FiltersNarrow | src/SIStorage.Service/Services/PackagesService.cs:68-130 | every present filter only narrows: the rows matching more filters are among those matching fewer, the count cannot grow, and no filter at all returns the whole table |
| PackagesService.SortedSlice | src/SIStorage.Service/Services/PackagesService.cs:175-177 | `Skip(From).Take(Count)` of a sorted sequence is sorted |
| PackagesService.SearchPage | src/SIStorage.Service/Services/PackagesService.cs:173-188 | a successful search has non-negative `From` and `Count`; `Total` is the number of matching rows whatever the paging; the page has at most `Count` rows, all matching rows of the table; a non-empty page means `Total > 0`; an empty page with `From == 0` and `Count > 0` means `Total == 0` |
| PackagesService.SearchFaults | src/SIStorage.Service/Services/PackagesService.cs:86-178 | the search fails exactly when the difficulty filter sets no comparison flag (`NoComparison`, raised first, while the query is built) or when `From` or `Count` is negative (`NegativeWindow`, the database rejecting the `OFFSET`/`LIMIT`) |
| PackagesService.SearchOrder | src/SIStorage.Service/Services/PackagesService.cs:132-171 | ordering permutes the matching rows; for Name, CreatedDate and DownloadCount the page is sorted by that key in the requested direction, with a missing creation date last ascending and first descending; Rating keeps the filtered order |
| PackagesService.Find | src/SIStorage.Service/Services/PackagesService.cs:362 | `FirstAsync` by key answers an id only if a row has that id and key, and nothing only if no row has the key |
| PackagesService.Upsert | src/SIStorage.Service/Services/PackagesService.cs:348-363 | `InsertOrUpdateAsync` then `FirstAsync`: afterwards the key is found under the returned id, ids already filed are unchanged, the table is unchanged or gains one row with the next id, and unique keys and ids stay unique |
| PackagesService.UpsertIdempotent | src/SIStorage.Service/Services/PackagesService.cs:348-363 | upserting the same key again changes nothing and returns the same id |
| PackagesService.UpsertAll | src/SIStorage.Service/Services/PackagesService.cs:306-330 | the upserts of the author (tag) loop as a fold of `Upsert`: every name is found under its returned id, ids already filed are unchanged, existing rows are kept as a prefix, every appended row's key is one of the names, and unique keys and ids stay unique |
| PackagesService.UpsertAllKnown | src/SIStorage.Service/Services/PackagesService.cs:306-330 | names that are all filed already leave the dictionary table exactly as it was and return their filed ids |
| PackagesService.LinkAll | src/SIStorage.Service/Services/PackagesService.cs:306-330 | the new dictionary table is exactly `UpsertAll` of the old one and the names; one link row per author (tag), in order, from the package to the id that upsert returned |
| PackagesService.Incremented | src/SIStorage.Service/Services/PackagesService.cs:52-55 | the update statement fails as a whole exactly when a row with the id is already at `int.MaxValue`; otherwise it keeps the number of rows |
| PackagesService.IncrementAddsOne | src/SIStorage.Service/Services/PackagesService.cs:48-61 | a successful update raises the total download count by exactly 1 when the id exists and by 0 when it does not, leaves the rows unchanged for an unknown id, and keeps ids unique |
| PackagesService.IncrementedTotal | src/SIStorage.Service/Services/PackagesService.cs:52-55 | with unique ids, incrementing the row with the id adds one to the sum of download counts exactly when the id is listed |
| PackagesService.LinkQueriesAgree | src/SIStorage.Service/Services/PackagesService.cs:70-108 | the tag, restriction and author queries the service builds (or none, when the filter is absent) select exactly the rows the corresponding filter accepts |
| PackagesService.ColumnQueriesAgree | src/SIStorage.Service/Services/PackagesService.cs:110-130 | the publisher (with the `-1` sentinel), language and text queries (or none) select exactly the rows the corresponding filter accepts |
| PackagesService.DifficultyAgrees | src/SIStorage.Service/Services/PackagesService.cs:84-87 | a difficulty expression equivalent to the mode's comparisons selects exactly the rows the difficulty filter accepts |
| PackagesService.Narrow | src/SIStorage.Service/Services/PackagesService.cs:68-130 | one `packages = packages.Where(...)` step turns the rows passing the first n filters into those passing n + 1 |
| PackagesService.ApplyFilters | src/SIStorage.Service/Services/PackagesService.cs:68-130 | fails with `NoComparison` exactly when the difficulty filter sets no flag; otherwise returns exactly the matching rows in storage order |
| PackagesService.FilterByLinks | src/SIStorage.Service/Services/PackagesService.cs:70-108 | the tag, difficulty, restriction and author stages: the rows passing the first four filters, or `NoComparison` |
| PackagesService.FilterByDifficulty | src/SIStorage.Service/Services/PackagesService.cs:84-87 | the difficulty stage: the rows passing the first two filters, or `NoComparison` exactly when no flag is set |
| PackagesService.FilterByColumns | src/SIStorage.Service/Services/PackagesService.cs:110-130 | the publisher, language and text stages complete the matching rows |
| PackagesService.LanguageCode | src/SIStorage.Service/Services/PackagesService.cs:279 | the language code is "en-US" exactly when the package language is "en-US", and "ru-RU" otherwise |
| PackagesService.PackagesService.constructor | src/SIStorage.Service/Services/PackagesService.cs:28-38 | the service reads the given tables and collation |
| PackagesService.PackagesService.GetPackage | src/SIStorage.Service/Services/PackagesService.cs:40-46 | returns the first row with the id, and fails with `PackageNotFound` exactly when no row has it |
| PackagesService.PackagesService.IncrementDownloadCount | src/SIStorage.Service/Services/PackagesService.cs:48-61 | keeps the catalog well formed; a failing update is swallowed and changes nothing; otherwise only the packages table changes, every row staying the same or, for the row with the id, gaining exactly one download |
| PackagesService.PackagesService.GetPackages | src/SIStorage.Service/Services/PackagesService.cs:63-189 | the stage-by-stage query, sort and page equal `Search`, whose faults, page, total and order are stated by `SearchFaults`, `SearchPage` and `SearchOrder` |
| PackagesService.PackagesService.AddPackage | src/SIStorage.Service/Services/PackagesService.cs:270-346 | the language is upserted under its normalised code; a null or empty publisher gives no publisher row and `PublisherId = null`; a duplicate package id fails after the dictionary upserts; otherwise one row with the metadata, zero downloads and the filed ids is appended, the author and tag tables become `UpsertAll` of their old rows and the names, one author link per author and one tag link per tag, in order, and one "Age" restriction link unless the restriction is blank |
| PackagesService.PackagesService.InsertDictionaries | src/SIStorage.Service/Services/PackagesService.cs:279-283 | the language upsert, and the publisher upsert only for a publisher that is not null or empty; nothing else changes |
| PackagesService.PackagesService.InsertPackageRow | src/SIStorage.Service/Services/PackagesService.cs:285-304 | appends the row, or fails with `DuplicatePackageId` and changes nothing when the id is taken |
| PackagesService.PackagesService.InsertLinks | src/SIStorage.Service/Services/PackagesService.cs:306-330 | the author and tag tables become `UpsertAll` of their old rows and the names; one author link per author and one tag link per tag are appended; nothing else changes |
| PackagesService.PackagesService.InsertRestriction | src/SIStorage.Service/Services/PackagesService.cs:337-345 | upserts the ("Age", value) restriction and appends one link to it |
| PackageIndexer.ThemeNames | src/SIStorage.Service/Services/PackageIndexer.cs:21 | one theme name per theme, in order |
| PackageIndexer.HistogramStep | src/SIStorage.Service/Services/PackageIndexer.cs:29-38 | one more content item: a text item leaves the statistic unchanged; any other type's entry becomes `(short)(entry + 1)`, starting from 0 |
| PackageIndexer.HistogramExact | src/SIStorage.Service/Services/PackageIndexer.cs:29-38 | when no type reaches 32768 items, text is never a key, the keys are exactly the non-text types that occur, and each value is that type's item count, at least 1 |
| PackageIndexer.HistogramSum | src/SIStorage.Service/Services/PackageIndexer.cs:29-38 | when no type reaches 32768 items, the values of the statistic add up to the number of non-text content items |
| PackageIndexer.TallyContent | src/SIStorage.Service/Services/PackageIndexer.cs:29-38 | the loop over one question's content turns the statistic of the items seen so far into that of the items seen plus this content |
| PackageIndexer.TallyQuestions | src/SIStorage.Service/Services/PackageIndexer.cs:27-39 | the loop over a theme's questions extends the statistic by their content |
| PackageIndexer.TallyThemes | src/SIStorage.Service/Services/PackageIndexer.cs:23-40 | the loop over a round's themes adds their question counts with `int` wrap-around and extends the statistic by their content |
| PackageIndexer.IndexPackage | src/SIStorage.Service/Services/PackageIndexer.cs:11-64 | one summary entry per round, in order, with the round's name and theme names; the question count is the number of all questions cast to `short`; the statistic is the histogram of all content; name, language, publisher, authors, tags and restriction are copied; difficulty is cast to `short`; the creation date is the given day |
| RandomPackageGenerator.Pick | src/SIStorage.Service/Helpers/RandomPackageGenerator.cs:130 | `Random.Shared.Next(n)` is below n, and 0 when n is 0 |
| RandomPackageGenerator.ChunksText | src/SIStorage.Service/Helpers/RandomPackageGenerator.cs:104 | the comment buffer's text is the marker followed by one entry per extraction, in extraction order |
| RandomPackageGenerator.EntryTerminator | src/SIStorage.Service/Helpers/RandomPackageGenerator.cs:172 | an `id:roundIndex:themeIndex;` entry holds exactly one `;` when the id text has none |
| RandomPackageGenerator.OneEntryPerExtraction | src/SIStorage.Service/Helpers/RandomPackageGenerator.cs:172 | the logged entries hold exactly one `;` per extraction |
| RandomPackageGenerator.LogAppend | src/SIStorage.Service/Helpers/RandomPackageGenerator.cs:144-149 | logging a drawn theme whose name is not yet seen keeps the placed names pairwise distinct, adds exactly that name to the seen set, and adds one comment chunk and one target round |
| RandomPackageGenerator.PlacedRoundsAppendTheme | src/SIStorage.Service/Helpers/RandomPackageGenerator.cs:171 | appending a theme to the last round places exactly one more theme, in that round |
| RandomPackageGenerator.PlacedRoundsAppendRound | src/SIStorage.Service/Helpers/RandomPackageGenerator.cs:53 | adding an empty round places no theme |
| RandomPackageGenerator.QuestionPriceExact | src/SIStorage.Service/Helpers/RandomPackageGenerator.cs:164 | without overflow, question i of target round r costs `(r + 1) * (i + 1) * BaseQuestionPrice` |
| RandomPackageGenerator.PricedAppendTheme | src/SIStorage.Service/Helpers/RandomPackageGenerator.cs:162-171 | appending a theme priced by position to round r keeps every question of the document priced by its round and position |
| RandomPackageGenerator.ResolveLinks | src/SIStorage.Service/Helpers/RandomPackageGenerator.cs:176-214 | a question's author (source) list keeps its length, and each entry becomes `link + tail` when `GetLink` finds a link and stays as it was otherwise |
| RandomPackageGenerator.InheritThemeAttribution | src/SIStorage.Service/Helpers/RandomPackageGenerator.cs:244-318 | a non-empty theme list keeps its length with links resolved; an empty one gets `GetRealAuthors`/`GetRealSources` of the round's list, or of the package's list when the round's is empty; when all three are empty it stays empty |
| RandomPackageGenerator.CopiedFilesNeverText | src/SIStorage.Service/Helpers/RandomPackageGenerator.cs:224-227 | no file is ever copied for text content |
| RandomPackageGenerator.CopiedFilesOrigin | src/SIStorage.Service/Helpers/RandomPackageGenerator.cs:222-241 | every copied file comes from a non-text item of the collection's type whose media has a stream, and is stored under the item's value |
| RandomPackageGenerator.CopiedFilesAppend | src/SIStorage.Service/Helpers/RandomPackageGenerator.cs:162-169 | copying the media of two runs of questions in turn copies the media of both, in order |
| RandomPackageGenerator.InheritContent | src/SIStorage.Service/Helpers/RandomPackageGenerator.cs:216-242 | the target keeps its collections, and each collection is extended by exactly the files of its type, in item order; a type with no collection copies nothing |
| RandomPackageGenerator.InheritItem | src/SIStorage.Service/Helpers/RandomPackageGenerator.cs:222-241 | one content item: its stream, if it has one and is not text, joins the collection of its type when that collection exists |
| RandomPackageGenerator.RewriteQuestion | src/SIStorage.Service/Helpers/RandomPackageGenerator.cs:164-167 | the question gets its new price whatever the old one, keeps its content, and its author and source lists keep their lengths with links resolved |
| RandomPackageGenerator.RewriteQuestions | src/SIStorage.Service/Helpers/RandomPackageGenerator.cs:162-169 | question i gets the price for its position and its links resolved, and the media of all questions are copied |
| RandomPackageGenerator.RewriteTheme | src/SIStorage.Service/Helpers/RandomPackageGenerator.cs:156-169 | the placed theme keeps its name, comments and number of questions, question q costs the price for round r and position q, authors and sources are inherited, and the media are copied |
| RandomPackageGenerator.Generation.constructor | src/SIStorage.Service/Helpers/RandomPackageGenerator.cs:41-47 | the state starts with an empty seen set, a budget of 10, an empty cache, the new document and a comment buffer holding the marker |
| RandomPackageGenerator.Generation.NextRandom | src/SIStorage.Service/Helpers/RandomPackageGenerator.cs:130 | each call consumes one draw of the oracle |
| RandomPackageGenerator.Generation.Open | src/SIStorage.Service/Helpers/RandomPackageGenerator.cs:151-154 | a cached id is answered from the cache and not reopened; a new id is opened once and cached; the cache only grows |
| RandomPackageGenerator.Generation.DrawAt | src/SIStorage.Service/Helpers/RandomPackageGenerator.cs:130-142 | the draws from a given position yield indices exactly when some package, round and theme are picked in range by `Next` over the package list, the selected slice and the round's theme names; an empty slice exactly when a package is drawn whose selected slice is empty; an empty package list always throws |
| RandomPackageGenerator.Generation.DrawTheme | src/SIStorage.Service/Helpers/RandomPackageGenerator.cs:130-142 | the sample is `DrawAt` the current draw position, and one or three values are consumed; for the final-round selector the round index is always 0, for the standard one it is below the last round |
| RandomPackageGenerator.Generation.SoundDraw | src/SIStorage.Service/Helpers/RandomPackageGenerator.cs:130-142 | when the package list is not empty and every package has rounds whose theme name lists are not empty, no draw runs past an end |
| RandomPackageGenerator.Generation.SoundFits | src/SIStorage.Service/Helpers/RandomPackageGenerator.cs:151-157 | when the provider opens every listed package to a document with at least the rounds and themes of its metadata, a drawn theme is found in its document |
| RandomPackageGenerator.Generation.ExtractTheme | src/SIStorage.Service/Helpers/RandomPackageGenerator.cs:118-174 | the outcome is decided by the draws: an index past the end throws; an empty slice or a drawn name already seen is rejected; a new name is placed exactly when the provider opens the package and the document has the drawn round and theme, and otherwise the provider's or the index fault escapes; over sound sources nothing throws; a rejected extraction changes no seen set, document, cache or comment; a placed one adds its new name, appends the rewritten theme to the target round only, copies its media, and appends one comment entry |
| RandomPackageGenerator.Generation.Adopt | src/SIStorage.Service/Helpers/RandomPackageGenerator.cs:151-172 | the source is taken from the cache or opened once; the theme is placed exactly when the provider opens the package and the document has the drawn round and theme; an unavailable source is `SourceUnavailable`, a missing round or theme `IndexOutOfRange` |
| RandomPackageGenerator.Generation.Transplant | src/SIStorage.Service/Helpers/RandomPackageGenerator.cs:156-172 | the theme is placed exactly when the round and theme indices are inside the opened document, and `IndexOutOfRange` escapes otherwise; a placed theme is the rewritten one, appended and logged |
| RandomPackageGenerator.Generation.Place | src/SIStorage.Service/Helpers/RandomPackageGenerator.cs:171-172 | the theme joins the target round, the copied media replace the collections, and the comment buffer gets exactly one entry; the generator's invariant is kept |
| RandomPackageGenerator.Generation.AddRound | src/SIStorage.Service/Helpers/RandomPackageGenerator.cs:53 | appends an empty round of the given kind named by its 1-based number |
| RandomPackageGenerator.Generation.FillSlot | src/SIStorage.Service/Helpers/RandomPackageGenerator.cs:57-67 | one slot: over sound sources it never throws; the last round gains exactly one theme when one is placed and none otherwise; earlier rounds and the package's other fields are unchanged |
| RandomPackageGenerator.Generation.SpendRetry | src/SIStorage.Service/Helpers/RandomPackageGenerator.cs:69-74 | `retryCounter-- >= 0`: the counter always drops by one, and the slot is retried exactly when the old counter was not negative, otherwise it is counted as skipped |
| RandomPackageGenerator.Generation.FillRound | src/SIStorage.Service/Helpers/RandomPackageGenerator.cs:55-76 | the slot loop terminates, never faults over sound sources, and the round's placed themes plus its skipped slots are exactly the requested count; earlier rounds are untouched |
| RandomPackageGenerator.Generation.AddStandardRounds | src/SIStorage.Service/Helpers/RandomPackageGenerator.cs:51-77 | over sound sources no fault; exactly `RoundCount` standard rounds named "1".."RoundCount", each holding its requested themes less its skipped slots |
| RandomPackageGenerator.Generation.Compose | src/SIStorage.Service/Helpers/RandomPackageGenerator.cs:51-104 | over sound sources no fault; the standard rounds, then one final round named `RoundCount + 1`, then the comment buffer appended to the package comment; at most 11 retries in the whole call, and any skipped slot means all 11 were spent |
| RandomPackageGenerator.Generation.RetryBound | src/SIStorage.Service/Helpers/RandomPackageGenerator.cs:69-74 | at most 11 failures retry a slot, and a skipped slot means all 11 were used |
| RandomPackageGenerator.Generation.DisposeCache | src/SIStorage.Service/Helpers/RandomPackageGenerator.cs:107-113 | every cached document is released exactly once |
| RandomPackageGenerator.Generation.Run | src/SIStorage.Service/Helpers/RandomPackageGenerator.cs:34-116 | over sound sources (a non-empty package list, every package with rounds whose theme name lists are not empty, and the provider opening each to a document with at least those rounds and themes) the result is a success; on success and on an escaping fault alike, every opened package was opened once and released once; a successful result is the composed document whose comment ends with the marker and one entry per placed theme |
| FacetsService.PublishersExactly | src/SIStorage.Service/Services/FacetsService.cs:21-40 | a publisher is listed exactly when some package has it as publisher (and, with a language, has that language) |
| FacetsService.AuthorsExactly | src/SIStorage.Service/Services/FacetsService.cs:42-62 | an author is listed exactly when a package-author row names it (and, with a language, that row's package has the language) |
| FacetsService.TagsExactly | src/SIStorage.Service/Services/FacetsService.cs:64-84 | a tag is listed exactly when a package-tag row names it (and, with a language, that row's package has the language) |
| FacetsService.RestrictionsExactly | src/SIStorage.Service/Services/FacetsService.cs:86-93 | a restriction is listed exactly when a package-restriction row names it |
| FacetsService.LanguagesExactly | src/SIStorage.Service/Services/FacetsService.cs:95-102 | a language is listed exactly when some package has it |
| FacetsService.LanguageNarrows | src/SIStorage.Service/Services/FacetsService.cs:21-84 | with a language, the publishers, authors and tags are among the unfiltered ones and no more numerous |
| FacetsService.FixtureTags | test/SIStorage.Service.ComponentTests/FacetsApiTests.cs:7-22 | on the fixture the tags are tag1..tag4, listed in storage order; tag5 has no package |
| FacetsService.FixtureTagsInLanguage | test/SIStorage.Service.ComponentTests/FacetsApiTests.cs:24-38 | with distinct package ids, the tags in language 1 are tag1..tag3; tag4 only belongs to the package in language 2 |
| FacetsService.FixturePublishers | test/SIStorage.Service.ComponentTests/FacetsApiTests.cs:40-54 | on the fixture the publishers are publisher1..publisher3 |
| FacetsService.FixturePublishersInLanguage | test/SIStorage.Service.ComponentTests/FacetsApiTests.cs:56-69 | the publishers in language 1 are publisher1 and publisher2 |
| FacetsService.FixtureAuthors | test/SIStorage.Service.ComponentTests/FacetsApiTests.cs:71-85 | on the fixture the authors are author1..author3 |
| FacetsService.FixtureAuthorsInLanguage | test/SIStorage.Service.ComponentTests/FacetsApiTests.cs:87-100 | with distinct package ids, the authors in language 1 are author1 and author2 |
| FacetsService.FixtureLanguages | test/SIStorage.Service.ComponentTests/FacetsApiTests.cs:102-115 | on the fixture the languages are language1 and language2; language3 is unused |
| FacetsService.FixtureRestrictions | test/SIStorage.Service.ComponentTests/FacetsApiTests.cs:117-130 | on the fixture the restrictions are Age 12+ and Age 18+; "custom value" is unused |

The fixture is the one built in `test/SIStorage.Service.ComponentTests/TestsBase.cs:94-175`. Its five package ids come from `Guid.NewGuid()`, so the fixture lemmas take them as parameters. Where a result depends on the ids, the lemma requires them to be distinct.

## Left out

- The SIPackages library (`SIDocument.Create`, `Load`, `Upgrade`, `GetContent`, `TryGetCollection`, `AddFileAsync`, stream copying): the generator calls `GetLink`, `GetRealAuthors`, `GetRealSources` and `TryGetMedia` as functions of the source document. A media collection is a map entry, and a type without an entry is one `TryGetCollection` returns null for. `doc.Upgrade()` (RandomPackageGenerator.cs:105, PackageIndexer.cs:13) is foreign code and not modelled.
- async/await, `CancellationToken` and the `using` disposal of media streams: all steps are sequential. Only the disposal of cached documents is tracked.
- `Random.Shared` is an injected oracle, and no distribution is modelled.
- `RandomPackageGenerator.Generation.ExtractTheme`: the source rewrites the drawn theme object inside the cached source document. The model rewrites a copy and leaves the cached document as opened. The two differ only if the same theme object were drawn again, and a second draw is rejected by its name unless the metadata list gives one theme two names.
- `RandomPackageGenerator.Generation.ExtractTheme`: the comment entry prints `document.Package.Rounds.IndexOf(round)`. The model prints the drawn round index. The two agree unless the same round object occurs twice in a document.
- `RandomPackageGenerator.Generation.Run`: success is promised for sound sources only. Over other sources a run can still succeed when its draws happen to avoid the faulty packages, and the model does not say which draw sequences do; each extraction's own outcome is stated exactly by `ExtractTheme`.
- `RandomPackageGenerator.Generation.DisposeCache` releases the documents in an unspecified order rather than the dictionary's enumeration order.
- `PackageIndexer.IndexPackage`: `DateTime.UtcNow` is the parameter `today`.
- `ToPackage`, `BuildContentUri`, `EnrichPackageQuery` (PackagesService.cs:191-233) and the AutoMapper mapping of rows to DTOs in `FacetsService`: these are URI building and projection. The model returns catalog rows, and `GetPackages` returns rows rather than `Package` DTOs.
- The database collation for name sorting is an injected rank function, and PostgreSQL's placement of NULL creation dates is a second sort tier.
- `FacetsService`: the facet queries (FacetsService.cs:27-99) have no `ORDER BY`, so the database leaves their result order unspecified. The model returns the rows in the dictionary's storage order, and the fixture lemmas state that order. The component tests compare results without regard to order.
- `PackagesService.SearchOrder`: rows with equal sort keys keep their filtered order, where the database leaves their order unspecified.
- `PackagesService.SearchPage`: the "empty page means no matches" property is stated for `From == 0` and `Count > 0`; with `Count == 0` every page is empty whatever the total.
- `PackagesService.PackagesService.GetPackages`: a negative `From` or `Count` reaches the database as a negative `OFFSET` or `LIMIT`, which PostgreSQL rejects. The model reports this as the fault `NegativeWindow` and does not model the error text or the HTTP status.
- `RandomPackageGenerator.Generation.Run`: `RoundCount`, `CommonThemeCount` and `FinalThemeCount` are C# `int`s, but the model takes them as non-negative, as the caller is expected to clamp them. With a negative `RoundCount` the source runs no standard round and names the final round `(RoundCount + 1).ToString()`, for example "0" or "-1". The model cannot represent that case.
- `PackagesService.Incremented`: the PostgreSQL `int4` overflow of `DownloadCount + 1` at `int.MaxValue` makes the statement fail. That failure is swallowed, so nothing changes. Other database errors are not modelled.
- `PackagesService.PackagesService.AddPackage`: the inserts are not in a transaction. A duplicate package id therefore fails after the language and publisher upserts have already happened, and the model keeps those upserts. A duplicate author or tag name in one package, which would violate the link table's primary key, is not modelled: links are appended as a sequence.
- `GetRandomPackageAsync` and `CleanTempPackages` (PackagesService.cs:435-452) are stubs and are not modelled.
- SQL translation, upsert internals, id sequences and JSON column converters: tables are sequences of rows. A dictionary's ids come from a `nextId` counter.
