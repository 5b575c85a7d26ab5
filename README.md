# Song search and bulk loader — a Dafny model

This project models the three pieces of a Flask/MySQL song-search service that hold real logic.

- **The band-selection search** (`POST /api/songs_bands`) does the following:
  - checks the JSON body and clamps the requested result count to 500;
  - flattens the genres of the selected bands into one lower-cased list without duplicates;
  - keeps a per-session cache of ranked results in a temporary table;
  - ranks the catalog by the number of distinct matching genres, then by title, and cuts at the limit;
  - maps arrangement names to icon files;
  - serves the table in pages of 20.
- **The weighted search** (`POST /api/songs_weighted`) checks its body and builds one `CASE` arm per weighted genre. It builds the `IN` placeholder list and the parameter vector that carries every genre twice. It returns at most 20 serialised rows.
- **The fast bulk loader** reads rows of the song catalog CSV. For each row it:
  - builds the normalised song tuple;
  - splits the pipe-separated genre, arrangement and region fields;
  - interns every name into a dense id that is never reset;
  - queues link pairs.

  It flushes seven batch lists through `executemany` whenever 1000 songs are queued, and once more at the end.

Each part keeps the form its source has:
- The session, the database's temporary tables and the loader's cursor are classes whose fields are updated in place. The cursor's own method records each call. The module methods `BandSearch.RefreshResults` and `BandSearch.GetSongsByBands` change the session and the database.
- The loops are methods with invariants, each proved against a specification function.
- The SQL semantics, the clamp, the de-duplication and the pagination arithmetic are pure functions, with lemmas about them.

Modules:
- `Text` covers Python string helpers: `strip`, ASCII `lower`, `split`/`join`, slicing, `dict.fromkeys` de-duplication, and counting `%s` placeholders.
- `Serialize` covers `json_serializable` and row serialisation.
- `Ranking` covers what the band-selection ranking statement computes over an abstract catalog.
- `BandSearch` covers the band-selection endpoint.
- `WeightedSearch` covers the weighted endpoint.
- `CsvFields` covers the loader's per-field conversions: `int()`, pipe lists, truncation and the song tuple.
- `BulkLoad` covers `fast_bulk_insert_songs` and `execute_batch_inserts`.

Three things outside the code become inputs:
- The database connection's success is a boolean.
- The result of the `information_schema` existence check is a boolean oracle.
- The eight hex digits cut from `uuid4` are a parameter.

The database is modelled per part. For the band search it is a catalog plus a map from temporary-table names to stored rows. For the weighted search it is the answer the statement gets: rows or an error. For the loader it is a cursor that records every `executemany` call in order.

Two features of the loader's control flow are modelled exactly:
- A row that raises inside the `try` keeps whatever it had already appended, which can be the song tuple and some names and links.
- Such a row skips the flush check. So `len(song_batch) < 1000` holds after every row that completes (`BulkLoad.CompletedRowLeavesRoom`). It does not hold after a row that raises: such a row can leave exactly 1000 songs queued, as `BulkLoad.RaisingRowMayFillBatch` shows. The next completing row then flushes 1001 or more.

## Model

| member | source | states |
|---|---|---|
| Serialize.JsonSerializable | src/api/get_songs_by_weighted.py:10-13 | a datetime or timedelta becomes its string form; every other value is returned unchanged; the result is never temporal |
| Serialize.SerializeRecord | src/api/get_songs_by_band_selection.py:133-134 | every field keeps its key and position and has `json_serializable` applied, so the record is JSON-ready |
| Serialize.SerializeRows | src/api/get_songs_by_weighted.py:75 | one serialised record per fetched row, in order |
| Serialize.SerializeReadyRecord | src/api/get_songs_by_band_selection.py:133-134 | serialising a record with no temporal value leaves it unchanged |
| Serialize.SerializeIdempotent | src/api/get_songs_by_weighted.py:75 | serialising twice equals serialising once |
| Text.Strip | fast_populate_database.py:139 | the result is a contiguous slice with only whitespace cut from both ends; its ends are not whitespace; it is empty iff the input is all whitespace |
| Text.Lower | src/api/get_songs_by_band_selection.py:59 | same length; each character is lower-cased in place |
| Text.Take | src/api/get_songs_by_weighted.py:52 | a prefix of the input of length min(n, length) |
| Text.Split | fast_populate_database.py:139 | at least one part; no part holds the separator; joining the parts with the separator gives back the input |
| Text.SplitJoin | fast_populate_database.py:139 | splitting a join of separator-free parts gives back the parts |
| Text.PercentCount | src/api/get_songs_by_weighted.py:71 | the number of `%` characters; zero iff there is none |
| Text.PercentCountAppend | src/api/get_songs_by_weighted.py:65-68 | the `%` count of a concatenation is the sum of the counts |
| Text.PercentCountJoin | src/api/get_songs_by_weighted.py:66-67 | joining n one-placeholder parts with a `%`-free separator gives n placeholders |
| Text.PlaceholderList | src/api/get_songs_by_band_selection.py:65 | `','.join(['%s'] * n)` holds exactly n placeholders and is empty iff n = 0 |
| Text.FirstIndex | src/api/get_songs_by_band_selection.py:62 | the position of the first occurrence |
| Text.Unique | src/api/get_songs_by_band_selection.py:62 | `dict.fromkeys`: no duplicates, the same elements, no longer than the input |
| Text.UniqueOrder | src/api/get_songs_by_band_selection.py:62 | the kept elements appear in the order of their first occurrence |
| Text.UniqueOfDistinct | src/api/get_songs_by_band_selection.py:62 | de-duplicating a list without duplicates returns it unchanged |
| Text.LexLeTotal | src/api/get_songs_by_band_selection.py:109 | any two titles are comparable |
| Text.Join | src/api/get_songs_by_band_selection.py:65 | `sep.join(parts)`; `Text.SplitJoin` is its inverse |
| Text.Digits | fast_populate_database.py:121 | the decimal digits of a number denote that number |
| Text.NoDuplicatesCount | src/api/get_songs_by_band_selection.py:62 | in a list without duplicates every value occurs at most once |
| Text.TakeMultiset | src/api/get_songs_by_band_selection.py:110 | a prefix holds no value more often than the whole list |
| Text.TwoOccurrences | src/api/get_songs_by_band_selection.py:62 | a value at two positions occurs at least twice |
| Text.SubMultisetNoDuplicates | src/api/get_songs_by_band_selection.py:102-110 | a sub-multiset of a list without duplicates has none either |
| Text.LexLeTransitive | src/api/get_songs_by_band_selection.py:109 | title order is transitive |
| Ranking.Lookup | src/api/get_songs_by_band_selection.py:82-95 | a simple CASE: None iff no arm's name matches; otherwise the icon of a matching arm |
| Ranking.IconNamesDistinct | src/api/get_songs_by_band_selection.py:83-93 | no arrangement name is listed twice, so every arm is reachable |
| Ranking.IconMapping | src/api/get_songs_by_band_selection.py:81-96 | each of the 11 listed arrangement names maps to its own icon file; every other name maps to NULL |
| Ranking.IconsOf | src/api/get_songs_by_band_selection.py:81-96 | an icon appears iff some arrangement of the song maps to it |
| Ranking.Score | src/api/get_songs_by_band_selection.py:97-101 | the score is positive iff some genre of the song, lower-cased, was requested; it never exceeds the song's number of genres |
| Ranking.ToRow | src/api/get_songs_by_band_selection.py:76-101 | the grouped row keeps id and title; its genres and icons are the song's, without duplicates; its score is `Score` |
| Ranking.Candidates | src/api/get_songs_by_band_selection.py:107-108 | `HAVING match_score > 0`: exactly the songs with a positive score, each as its grouped row |
| Ranking.CandidatesAvoid | src/api/get_songs_by_band_selection.py:102-108 | an id no catalog song has is the id of no grouped row |
| Ranking.PrependDistinct | src/api/get_songs_by_band_selection.py:102 | a row whose id is new keeps the ids distinct when put in front |
| Ranking.CandidatesDistinct | src/api/get_songs_by_band_selection.py:102-108 | `GROUP BY s.id`: over a catalog with distinct ids, the grouped rows have distinct ids |
| Ranking.RankLeTotal | src/api/get_songs_by_band_selection.py:109 | any two rows are ordered by score descending, then title |
| Ranking.RankLeTransitive | src/api/get_songs_by_band_selection.py:109 | the ranking order is transitive |
| Ranking.Insert | src/api/get_songs_by_band_selection.py:109 | inserting into a sorted list keeps it sorted and adds exactly that row |
| Ranking.Sort | src/api/get_songs_by_band_selection.py:109 | `ORDER BY match_score DESC, s.title`: sorted, and a permutation of the input |
| Ranking.TakeSortedComplete | src/api/get_songs_by_band_selection.py:109-110 | a row that the LIMIT cut off ranks no earlier than every row kept, and the kept list is full |
| Ranking.Rank | src/api/get_songs_by_band_selection.py:97-110 | length min(limit, matches); sorted; a sub-multiset of the matching rows, so no row twice; every row is a matching song's grouped row; any matching song left out means the limit was reached and every kept row ranks no later than it |
| Ranking.RankDistinct | src/api/get_songs_by_band_selection.py:102-110 | over a catalog with distinct ids, the ranked rows hold one row per matching song, none twice |
| Ranking.RowRecord | src/api/get_songs_by_band_selection.py:67-75 | a stored row as the page query returns it, with `match_score` as the float the FLOAT column yields; already JSON-ready |
| BandSearch.TotalRequested | src/api/get_songs_by_band_selection.py:32 | never above 500; 500 when absent; the caller's value when it is at most 500; no lower bound |
| BandSearch.Validate | src/api/get_songs_by_band_selection.py:24-35 | a missing body or `genres` key gives 400 "No band data provided"; an empty band list gives 400 "No bands provided"; otherwise accepted with the bands, the page (default 1) and the clamped count |
| BandSearch.LoweredTruthy | src/api/get_songs_by_band_selection.py:59 | exactly the lower-cased non-empty, non-null genres of one band |
| BandSearch.FlattenGenresElements | src/api/get_songs_by_band_selection.py:56-59 | a name is in the flattened list iff it is the lower-cased form of a non-empty genre of a band that has a `genres` key |
| BandSearch.FlattenGenres | src/api/get_songs_by_band_selection.py:56-59 | the lower-cased truthy genres of each band with a `genres` key, band by band; `FlattenGenresElements` states its elements |
| BandSearch.CollectGenres | src/api/get_songs_by_band_selection.py:56-59 | the `extend` loop builds exactly the flattened list |
| BandSearch.UniqueGenres | src/api/get_songs_by_band_selection.py:62 | `list(dict.fromkeys(...))` of the flattened list; `UniqueGenresSpec` states its properties |
| BandSearch.UniqueGenresSpec | src/api/get_songs_by_band_selection.py:56-62 | the genre list has no duplicates, holds exactly the lower-cased truthy genres of bands with a `genres` key, and keeps first-occurrence order |
| BandSearch.IconArmsHaveNoPlaceholder | src/api/get_songs_by_band_selection.py:82-95 | the CASE arms add no placeholder |
| BandSearch.IconTableHasNoPercent | src/api/get_songs_by_band_selection.py:83-93 | no icon-table name or file holds a `%` |
| BandSearch.HeadHasNoPercent | src/api/get_songs_by_band_selection.py:67-98 | the statement text before the IN list holds no placeholder when the table name has none |
| BandSearch.EndHasOnePlaceholder | src/api/get_songs_by_band_selection.py:98-111 | the text after the IN list holds exactly one placeholder, the LIMIT's |
| BandSearch.RankingParams | src/api/get_songs_by_band_selection.py:113 | the parameters are the unique genres in order, followed by the clamped count |
| BandSearch.RankingQueryPlaceholders | src/api/get_songs_by_band_selection.py:65-113 | the statement's placeholder count equals its parameter count, n + 1 |
| BandSearch.TableNameHasNoPercent | src/api/get_songs_by_band_selection.py:53 | `band_results_` plus eight hex digits holds no `%` |
| BandSearch.RankingQuery | src/api/get_songs_by_band_selection.py:65-111 | the statement text: head, one placeholder per genre, then the end; `RankingQueryPlaceholders` counts its placeholders |
| BandSearch.RankingStatement | src/api/get_songs_by_band_selection.py:67-113 | the executed text and parameters, with as many placeholders as parameters |
| BandSearch.TotalPages | src/api/get_songs_by_band_selection.py:136 | the least page count that covers all rows |
| BandSearch.HasMoreIff | src/api/get_songs_by_band_selection.py:143 | `page < total_pages` iff rows remain after this page |
| BandSearch.Offset | src/api/get_songs_by_band_selection.py:121 | `(page - 1) * per_page` is negative, which MySQL's OFFSET rejects, exactly when the page is below 1 |
| BandSearch.PageRows | src/api/get_songs_by_band_selection.py:121-130 | `LIMIT 20 OFFSET (page-1)*20`: at most 20 rows, the consecutive rows starting at the offset, empty past the end |
| BandSearch.RowOnItsPage | src/api/get_songs_by_band_selection.py:121-136 | every stored row appears on exactly the page its index names, and that page is within the page count |
| BandSearch.PageNonEmpty | src/api/get_songs_by_band_selection.py:121-136 | a page of number at least 1 is non-empty iff it is within the page count |
| BandSearch.PageOf | src/api/get_songs_by_band_selection.py:133-144 | a served page: at most 20 records, the session's total, the page, `TotalPages(total)`, and `hasMore` iff a row follows the page |
| BandSearch.PageAnswer | src/api/get_songs_by_band_selection.py:120-144 | a failure exactly when the page is below 1, the table is missing or `total_results` is missing; otherwise `PageOf` the stored rows |
| BandSearch.RowRecords | src/api/get_songs_by_band_selection.py:133-134 | one serialised record per fetched row |
| BandSearch.RowRecordsUnchanged | src/api/get_songs_by_band_selection.py:133-134 | serialising stored rows changes nothing, because they hold no temporal value |
| BandSearch.Session.constructor | src/api/get_songs_by_band_selection.py:42 | a new session holds neither key |
| BandSearch.Database.constructor | src/api/get_songs_by_band_selection.py:102-106 | a catalog with no temporary table |
| BandSearch.RefreshResults | src/api/get_songs_by_band_selection.py:42-118 | a hit changes nothing. A recompute stores a fresh name and executes the ranking statement. It creates the table with `Rank`'s rows and records their count. It fails, changing no table and no count, exactly on an empty IN list, a negative LIMIT or an existing name |
| BandSearch.FetchPage | src/api/get_songs_by_band_selection.py:121-144 | a page below 1 gives a 500 (negative OFFSET) before the table is looked up; then a missing table gives a 500, and a missing `total_results` gives a 500. Otherwise the response holds the page's serialised rows, the total, the page, the page count and `hasMore` iff page < page count. The answer is `PageAnswer`'s |
| BandSearch.GetSongsByBands | src/api/get_songs_by_band_selection.py:18-148 | no connection gives a 500; a rejected body gives its 400 and changes nothing. A cache hit changes nothing and answers `PageAnswer` over the stored table. A statement is executed iff the cache must be recomputed, and it is the ranking statement over the unique genres. No extractable genre or a negative count gives a 500, and so does an existing name; neither changes a table or `total_results`. Otherwise the table is created with `Rank`'s rows, `total_results` is their count, and the answer is `PageAnswer` over the new table. Every page response is `PageAnswer`'s, so its page count is `TotalPages(total)` |
| WeightedSearch.Validate | src/api/get_songs_by_weighted.py:23-29 | a missing body or `genres` key gives 400 "No genres provided"; an empty list gives 400 "Empty genres list"; nothing else is rejected |
| WeightedSearch.EntryFault | src/api/get_songs_by_weighted.py:59-60 | a missing `genre` is reported first, then a missing `weight`, then a weight `float()` rejects; no fault iff the entry is well formed |
| WeightedSearch.FirstFault | src/api/get_songs_by_weighted.py:58-62 | the fault of the first malformed entry; none iff every entry is well formed |
| WeightedSearch.FirstFaultAt | src/api/get_songs_by_weighted.py:58-62 | if entry i is the first malformed one, its fault is the one raised |
| WeightedSearch.CaseClause | src/api/get_songs_by_weighted.py:61 | one CASE arm: the genre's placeholder and the inlined weight; `CaseClausePlaceholder` counts its placeholder |
| WeightedSearch.CaseClauses | src/api/get_songs_by_weighted.py:56-62 | one arm per entry, in request order |
| WeightedSearch.GenreValues | src/api/get_songs_by_weighted.py:56-62 | one genre per entry, in request order |
| WeightedSearch.BuildCases | src/api/get_songs_by_weighted.py:56-62 | the loop raises the first entry's fault, or builds one CASE arm per entry and the genre values, in request order |
| WeightedSearch.CaseClausePlaceholder | src/api/get_songs_by_weighted.py:61 | each CASE arm holds exactly one placeholder, the genre's; the weight is inlined |
| WeightedSearch.CasesPlaceholders | src/api/get_songs_by_weighted.py:66 | the joined CASE arms hold one placeholder per entry |
| WeightedSearch.HeadHasNoPercent | src/api/get_songs_by_weighted.py:35-39 | the text before the CASE arms holds no placeholder |
| WeightedSearch.MiddleHasNoPercent | src/api/get_songs_by_weighted.py:41-48 | the text between the CASE arms and the IN list holds no placeholder |
| WeightedSearch.TailHasNoPercent | src/api/get_songs_by_weighted.py:48-53 | the text after the IN list holds no placeholder |
| WeightedSearch.WeightedQuery | src/api/get_songs_by_weighted.py:35-53 | the statement text: head, CASE arms joined by newlines, middle, IN placeholders, tail |
| WeightedSearch.WeightedParams | src/api/get_songs_by_weighted.py:71 | `genre_values + genre_values`: length 2n, each genre at k and at n + k |
| WeightedSearch.WeightedStatement | src/api/get_songs_by_weighted.py:65-71 | the executed text and its parameters; `StatementPlaceholders` counts its placeholders |
| WeightedSearch.StatementPlaceholders | src/api/get_songs_by_weighted.py:40-71 | the formatted statement holds 2n placeholders, as many as its parameters |
| WeightedSearch.ParamsFollowEntries | src/api/get_songs_by_weighted.py:56-71 | arm k inlines entry k's weight, and parameters k and n + k are entry k's genre |
| WeightedSearch.GetSongs | src/api/get_songs_by_weighted.py:16-80 | no connection gives a 500; a rejected body gives its 400; a malformed entry gives a 500 with its fault and executes nothing. Otherwise the statement executed has matching placeholders and parameters. A database error gives a 500; rows give at most 20 serialised records |
| CsvFields.ParseInt | fast_populate_database.py:121 | `int()` accepts only a string that is not blank after stripping |
| CsvFields.ParseIntAccepts | fast_populate_database.py:121 | every string that strips to an optional `+` or `-` followed by one or more digits is accepted, with the digits' value, negated after `-` (so `" 007 "`, `"+5"` and `"-0"` parse) |
| CsvFields.ParseShow | fast_populate_database.py:121 | `int(str(n)) == n` for every integer |
| CsvFields.ParseIntCharacters | fast_populate_database.py:133-134 | an accepted string is, after stripping, digits with at most a leading sign |
| CsvFields.Tokens | fast_populate_database.py:139 | every token is non-empty, free of `\|` and has no whitespace at either end |
| CsvFields.KeepStripped | fast_populate_database.py:139 | stripping and dropping empty parts of a split leaves only tokens |
| CsvFields.KeepStrippedTokens | fast_populate_database.py:139 | a list of tokens passes the strip-and-filter unchanged |
| CsvFields.TokensJoin | fast_populate_database.py:139 | splitting a `\|`-joined list of tokens gives back the tokens, in order |
| CsvFields.Clipped | fast_populate_database.py:126-132 | a present field becomes its prefix of length min(width, length), so it is kept whole when it fits; `''` when empty; a missing column raises |
| CsvFields.Duration | fast_populate_database.py:131 | an empty duration becomes None; otherwise it is kept |
| CsvFields.Available | fast_populate_database.py:128 | true iff the lower-cased field equals `true`; a missing value raises |
| CsvFields.Count | fast_populate_database.py:133-134 | 0 when blank after stripping; otherwise `int()` of the field |
| CsvFields.SongId | fast_populate_database.py:121 | the id is `int()` of the ID field |
| CsvFields.SongOf | fast_populate_database.py:121-135 | a tuple is built iff the id converts, every column is present, `Available` has a value and both counts convert. The tuple holds that id, each text field exactly as `Clipped` cuts it, the duration as `Duration` gives it, the flag and the counts |
| CsvFields.SongOfWidths | fast_populate_database.py:124-135 | the tuple's text fields fit their columns: 255 characters, 512 for the album cover |
| CsvFields.NamesOf | fast_populate_database.py:139 | a pipe field present with a value gives its tokens; otherwise the stage raises |
| BulkLoad.Cursor.constructor | fast_populate_database.py:94 | a new cursor has executed nothing |
| BulkLoad.Cursor.ExecuteMany | fast_populate_database.py:203 | one `executemany` call is appended to the cursor's record |
| BulkLoad.BatchStatements | fast_populate_database.py:196-228 | the calls `execute_batch_inserts` makes, in its order, skipping empty lists; `BatchStatementsSendEachList` states their properties |
| BulkLoad.SentAppend | fast_populate_database.py:196-228 | the rows sent by two runs of calls are the rows of the first followed by those of the second |
| BulkLoad.SentSend | fast_populate_database.py:202-203 | a skipped empty batch sends nothing; a sent one sends exactly its rows |
| BulkLoad.BatchStatementsSendEachList | fast_populate_database.py:196-228 | the calls send each of the seven lists to its own table whole. No call is empty. Lookups come before songs and songs before links. Nothing is executed iff all lists are empty |
| BulkLoad.ExecuteBatchInserts | fast_populate_database.py:196-228 | the cursor receives exactly those calls, in that order |
| BulkLoad.InternOne | fast_populate_database.py:140-144 | a known name keeps its id and adds no lookup row; a new name gets id len(map)+1 and one lookup row; either way one link to the name's id |
| BulkLoad.EnumeratesMeans | fast_populate_database.py:141-143 | ids are exactly 1..n, distinct names get distinct ids, and every name is listed exactly once |
| BulkLoad.InternOneKeeps | fast_populate_database.py:140-144 | interning keeps the lookup rows enumerating the map and every link pointing at an id in it |
| BulkLoad.InternAllKeeps | fast_populate_database.py:140-160 | the same over all names of a field |
| BulkLoad.InternAllIds | fast_populate_database.py:141-142 | ids once given never change; the map gains exactly the row's names |
| BulkLoad.InternAllLinks | fast_populate_database.py:144 | one link per token, in token order, to that token's id, duplicates included |
| BulkLoad.InternNames | fast_populate_database.py:140-144 | the per-field loop computes the interning function |
| BulkLoad.Flush | fast_populate_database.py:165-177 | the pending lists go to the cursor and are cleared; the maps and the count are kept |
| BulkLoad.Step | fast_populate_database.py:120-184 | one iteration: the `try` body up to line 162, then, still inside the `try`, a flush when the row got that far and 1000 songs are pending |
| BulkLoad.Run | fast_populate_database.py:119-184 | the loop over the parsed rows, one step per row from the empty state |
| BulkLoad.Finish | fast_populate_database.py:186-191 | the final flush, made only when songs are pending |
| BulkLoad.Load | fast_populate_database.py:92-194 | the whole run over the rows as read |
| BulkLoad.ParseRows | fast_populate_database.py:119 | each row is parsed on its own, in order |
| BulkLoad.Attempt | fast_populate_database.py:120-162 | the `try` body up to line 162, before the flush check that `Step` adds: nothing is flushed. Its song tuple is queued when it could be built. The count grows iff the row completes |
| BulkLoad.RunSnoc | fast_populate_database.py:119-184 | processing one more row is one more step |
| BulkLoad.TryRow | fast_populate_database.py:120-162 | one iteration's `try` body: completes iff every stage succeeds; its effect is `Attempt`'s |
| BulkLoad.FlushMoves | fast_populate_database.py:165-168 | a flush moves the pending lists to the cursor intact |
| BulkLoad.FlushKeeps | fast_populate_database.py:165-177 | a flush keeps the interning invariant |
| BulkLoad.AttemptKeeps | fast_populate_database.py:120-184 | a row, completed or raising, keeps the interning invariant |
| BulkLoad.StepKeeps | fast_populate_database.py:119-184 | one iteration keeps the interning invariant |
| BulkLoad.RunInvariant | fast_populate_database.py:119-184 | the invariant holds after any number of rows |
| BulkLoad.StepSongs | fast_populate_database.py:136-177 | songs sent plus songs pending grow by the row's tuple; the count grows iff the row completes |
| BulkLoad.RunSongs | fast_populate_database.py:119-184 | songs sent plus pending are the parsed tuples in row order; the count is the number of completed rows |
| BulkLoad.CompletedRowLeavesRoom | fast_populate_database.py:162-177 | after a completed row fewer than 1000 songs are pending |
| BulkLoad.RaisingRowMayFillBatch | fast_populate_database.py:136-184 | a row whose genre stage raises can leave exactly 1000 songs pending without a flush |
| BulkLoad.FinishKeeps | fast_populate_database.py:186-191 | the final flush leaves nothing pending and sends the remaining songs |
| BulkLoad.NothingPending | fast_populate_database.py:186-191 | with nothing pending, the lookup rows sent enumerate each map and every link sent points at an id in it |
| BulkLoad.FinishSendsEverything | fast_populate_database.py:119-194 | after the run, every parsed tuple was sent in order. Each kind's lookup rows sent enumerate its map exactly once, and every link sent points into it. The count is the number of completed rows |
| BulkLoad.LoadSendsEverything | fast_populate_database.py:92-194 | the same over the rows as read |
| BulkLoad.FastBulkInsertSongs | fast_populate_database.py:92-194 | the cursor receives exactly `Load`'s calls and the count returned is `Load`'s |

## Left out

- Connection setup and teardown, `jsonify` and HTTP encoding, logging and `print` are left out. The connection's success is a boolean parameter. `src/utility/database_connect.py` is not part of this model.
- Randomness: the eight hex digits of the temporary-table name are a parameter. Two sessions drawing the same name are covered only as the "table already exists" failure.
- Temporary tables: their per-connection lifetime and their visibility in `information_schema` are left out. The existence check is a boolean oracle, and the database keeps every table it creates.
- The driver's placeholder substitution is left out. The model proves the placeholder count equals the parameter count. It does not model quoting or escaping.
- BandSearch.RefreshResults: MySQL's refusal of `IN ()` and of a negative `LIMIT` is modelled as a syntax-error fault without its message text. An error raised by the `COUNT(*)` statement is left out.
- Ranking.Sort: rows equal in both score and title come out in the order of the model's insertion sort, while MySQL leaves their order unspecified. The page fetch orders by `match_score` only, and the model serves the stored rank order.
- BandSearch.PageRows: the page query orders by `match_score DESC` only, so rows tied on score have no fixed order from one query to the next. Real pages can then overlap or skip rows. The model slices the one stored rank order.
- BandSearch.RowOnItsPage: it holds of the model's single stored order. Because ties are unordered between page queries, MySQL does not promise it.
- Ranking.RowRecord: `GROUP_CONCAT(DISTINCT ...)` leaves the order of the joined names unspecified, and the model fixes it to the order of the song's links. `match_score` is a single-precision `FLOAT` column, so the rendering as whole-number digits plus `.0` is exact only for scores up to 2**24.
- Text.LexLe: `ORDER BY s.title` and the CASE comparison use the column's collation. The model uses code-point (binary) order.
- `GROUP_CONCAT` silently truncates its result at the server's `group_concat_max_len` (1024 bytes by default). The model keeps every genre and icon name.
- Ranking.Score: genre names compare by exact character equality, not by MySQL collation. `LOWER` is ASCII-only.
- Text.Lower: only ASCII letters are lower-cased; Python's full Unicode lower-casing is left out. It is exact for comparisons with `true` and with ASCII genre names.
- CsvFields.ParseInt: digit separators (`_`) and non-ASCII digits that Python's `int()` accepts are rejected. Python 3.11's limit of 4300 digits, beyond which `int()` raises ValueError, is not modelled: any number of digits parses.
- Body shapes other than lists and objects are left out: a `genres` value that is not a list, a band that is not an object, a genre that is not a string. A `page` or `totalRequested` that `int()` rejects raises before the `try` and is also left out.
- WeightedSearch.GetSongs: the float-weighted `SUM` score, the `WHERE`/`HAVING`/`ORDER BY` and the database's rows are an input answer. The text of each rendered weight is opaque, and the only fact about it is that it holds no `%`.
- The loader's `INSERT IGNORE` statements are recorded by table and rows, not by SQL text. Their effect on existing database rows is left out.
- The loader's commits, database errors raised during a flush, the timing and the index/constraint toggles are left out. So are `connect_to_database` and `main`.
- The CSV file is given as the sequence of rows `csv.DictReader` yields. A missing column is an absent key and a short row's missing value is None. File reading and CSV quoting are left out.
- The loader keeps each kind's map, lookup batch and link batch together in one `Table` value. This is the same data the source holds in three variables.
- `populate_database.py`, the front-end script and the Flask wiring are left out; they hold no logic modelled here.
