/**
 * The POST /api/songs_bands endpoint: input checks, the result-count clamp,
 * flattening band genre lists, the per-session cache of ranked results in a
 * temporary table, and pagination over that table.
 */
module BandSearch {
  import opened Text
  import opened Serialize
  import opened Ranking

  const MaxResults: int := 500
  const PerPage: int := 20
  const TablePrefix: string := "band_results_"

  /** One selected band; `genres` is None when the band object has no "genres" key,
      and a None entry is a JSON null. */
  datatype Band = Band(genres: Option<seq<Option<string>>>)

  /** The JSON body; a None field is an absent key. */
  datatype Body = Body(genres: Option<seq<Band>>, page: Option<int>, totalRequested: Option<int>)

  /** What an exception raised inside the endpoint's `try` reports. */
  datatype Fault =
    | SqlSyntaxError           // the server rejects the statement text
    | TableAlreadyExists(name: string)
    | NoSuchTable(name: string)
    | MissingSessionKey(key: string)

  datatype ErrorBody = Text(message: string) | Raised(fault: Fault)

  datatype Response =
    | PageResponse(songs: seq<Record>, total: int, currentPage: int, totalPages: int, hasMore: bool)
    | Failure(status: int, error: ErrorBody)

  /** The request after its checks: the band list and the two integers read from the body. */
  datatype Request = Request(bands: seq<Band>, page: int, totalRequested: int)

  datatype Checked = Accepted(request: Request) | Rejected(response: Response)

  /** The eight lower-case hex digits cut from a fresh uuid4. */
  type HexSuffix = s: string | |s| == 8 && forall i :: 0 <= i < |s| ==> s[i] in "0123456789abcdef"
    witness "00000000"

  /** A query parameter as the driver receives it. */
  datatype Param = TextParam(s: string) | IntParam(i: int)

  /** A statement sent with `cursor.execute(text, params)`. */
  datatype Statement = Statement(text: string, params: seq<Param>)

  /** `min(int(data.get('totalRequested', 500)), 500)`: capped above, defaulted, never raised from below. */
  function TotalRequested(requested: Option<int>): (n: int)
    ensures n <= MaxResults
    ensures requested.None? ==> n == MaxResults
    ensures requested.Some? && requested.value <= MaxResults ==> n == requested.value
    ensures requested.Some? && requested.value > MaxResults ==> n == MaxResults
  {
    match requested
    case None => MaxResults
    case Some(v) => if v < MaxResults then v else MaxResults
  }

  /** The checks made before any query. */
  function Validate(body: Option<Body>): (r: Checked)
    ensures (body.None? || body.value.genres.None?) ==> r == Rejected(Failure(400, Text("No band data provided")))
    ensures body.Some? && body.value.genres == Some([]) ==> r == Rejected(Failure(400, Text("No bands provided")))
    ensures r.Accepted? <==> body.Some? && body.value.genres.Some? && body.value.genres.value != []
    ensures r.Accepted? ==> r.request.bands == body.value.genres.value
    ensures r.Accepted? ==> r.request.page == (if body.value.page.Some? then body.value.page.value else 1)
    ensures r.Accepted? ==> r.request.totalRequested == TotalRequested(body.value.totalRequested)
  {
    if body.None? || body.value.genres.None? then Rejected(Failure(400, Text("No band data provided")))
    else
      var bands := body.value.genres.value;
      var page := match body.value.page case Some(p) => p case None => 1;
      var total := TotalRequested(body.value.totalRequested);
      if bands == [] then Rejected(Failure(400, Text("No bands provided")))
      else Accepted(Request(bands, page, total))
  }

  /** `[g.lower() for g in band['genres'] if g]` */
  function LoweredTruthy(gs: seq<Option<string>>): (r: seq<string>)
    ensures forall x :: x in r <==> exists g :: Some(g) in gs && g != [] && x == Lower(g)
  {
    if |gs| == 0 then []
    else
      var rest := LoweredTruthy(gs[1..]);
      assert forall g :: g in gs <==> g == gs[0] || g in gs[1..];
      if gs[0].Some? && gs[0].value != [] then [Lower(gs[0].value)] + rest else rest
  }

  /** What one band contributes to `genre_list`. */
  function BandGenres(band: Band): seq<string> {
    if band.genres.Some? then LoweredTruthy(band.genres.value) else []
  }

  /** `genre_list` after the loop over the bands. */
  function FlattenGenres(bands: seq<Band>): seq<string> {
    if |bands| == 0 then [] else FlattenGenres(bands[..|bands| - 1]) + BandGenres(bands[|bands| - 1])
  }

  /** A name is in the flattened list iff it is the lower-cased form of a non-empty genre of a band with a genres key. */
  lemma {:induction false} FlattenGenresElements(bands: seq<Band>)
    ensures forall x :: x in FlattenGenres(bands) <==>
      exists b, g :: b in bands && b.genres.Some? && Some(g) in b.genres.value && g != [] && x == Lower(g)
  {
    if |bands| > 0 {
      var init, last := bands[..|bands| - 1], bands[|bands| - 1];
      FlattenGenresElements(init);
      assert bands == init + [last];
      assert forall b :: b in bands <==> b in init || b == last;
    }
  }

  /** The loop at the start of a recompute: extend `genre_list` band by band. */
  method CollectGenres(bands: seq<Band>) returns (genreList: seq<string>)
    ensures genreList == FlattenGenres(bands)
  {
    genreList := [];
    var i := 0;
    while i < |bands|
      invariant 0 <= i <= |bands|
      invariant genreList == FlattenGenres(bands[..i])
    {
      var band := bands[i];
      if band.genres.Some? {
        genreList := genreList + LoweredTruthy(band.genres.value);
      }
      assert bands[..i + 1][..i] == bands[..i];
      i := i + 1;
    }
    assert bands[..i] == bands;
  }

  /** `unique_genres`: the requested genre names, lower-cased, in first-seen order, without repeats. */
  function UniqueGenres(bands: seq<Band>): seq<string> {
    Unique(FlattenGenres(bands))
  }

  /** What the ranking query is given to match against. */
  lemma UniqueGenresSpec(bands: seq<Band>)
    ensures NoDuplicates(UniqueGenres(bands))
    ensures forall x :: x in UniqueGenres(bands) <==>
      exists b, g :: b in bands && b.genres.Some? && Some(g) in b.genres.value && g != [] && x == Lower(g)
    ensures forall i, j :: 0 <= i < j < |UniqueGenres(bands)| ==>
      FirstIndex(FlattenGenres(bands), UniqueGenres(bands)[i]) < FirstIndex(FlattenGenres(bands), UniqueGenres(bands)[j])
  {
    FlattenGenresElements(bands);
    UniqueOrder(FlattenGenres(bands));
  }

  /** One `WHEN '<arrangement>' THEN '<icon>' ` arm of the icon CASE. */
  function IconArm(entry: (string, string)): string {
    "WHEN '" + entry.0 + "' THEN '" + entry.1 + "' "
  }

  /** The arms of `CASE a.arrangement_name ... ELSE NULL END`, one per icon-table entry, in table order. */
  function IconArms(table: seq<(string, string)>): string {
    Concat(seq(|table|, k requires 0 <= k < |table| => IconArm(table[k])))
  }

  lemma IconArmsHaveNoPlaceholder(table: seq<(string, string)>)
    requires forall k :: 0 <= k < |table| ==> '%' !in table[k].0 && '%' !in table[k].1
    ensures PercentCount(IconArms(table)) == 0
  {
    var arms := seq(|table|, k requires 0 <= k < |table| => IconArm(table[k]));
    forall k | 0 <= k < |arms| ensures '%' !in arms[k] {
      assert arms[k] == "WHEN '" + table[k].0 + "' THEN '" + table[k].1 + "' ";
    }
    ConcatHasNoPercent(arms);
  }

  lemma IconTableHasNoPercent()
    ensures forall k :: 0 <= k < |IconTable| ==> '%' !in IconTable[k].0 && '%' !in IconTable[k].1
  {
  }

  /** The statement text up to the temporary table's name. */
  const QueryCreate: string := "CREATE TEMPORARY TABLE "

  /** From the column list to the icon CASE. */
  const QueryColumns: seq<string> := [
    " (id INT PRIMARY KEY,",
    " title VARCHAR(255),",
    " artist VARCHAR(255),",
    " genres TEXT,",
    " arrangements TEXT,",
    " match_score FLOAT)",
    " SELECT s.id,",
    " s.title, s.artist,",
    " GROUP_CONCAT(DISTINCT",
    " g.genre_name)",
    " as genres,",
    " GROUP_CONCAT(DISTINCT",
    " CASE",
    " a.arrangement_name "
  ]

  /** From the end of the icon CASE to the IN list. */
  const QueryScore: seq<string> := [
    "ELSE NULL END)",
    " as arrangements,",
    " COUNT(DISTINCT CASE",
    " WHEN",
    " LOWER(g.genre_name)",
    " IN ("
  ]

  /** From the end of the IN list to the LIMIT clause. */
  const QueryTail: seq<string> := [
    ") THEN g.genre_name",
    " ELSE NULL END)",
    " as match_score",
    " FROM songs s",
    " LEFT JOIN",
    " song_genres sg",
    " ON s.id = sg.song_id",
    " LEFT JOIN genres g",
    " ON sg.genre_id = g.id",
    " LEFT JOIN",
    " song_arrangements sa",
    " ON s.id = sa.song_id",
    " LEFT JOIN",
    " arrangements a",
    " ON sa.arrangement_id",
    " = a.id",
    " GROUP BY s.id",
    " HAVING match_score > 0",
    " ORDER BY match_score",
    " DESC, s.title"
  ]

  const QueryLimit: string := " LIMIT %s"

  /** The statement text before the IN list: table definition, columns, icon CASE, score CASE. */
  function QueryHead(table: string): string {
    QueryCreate + table + Lines(QueryColumns) + IconArms(IconTable) + Lines(QueryScore)
  }

  /** The statement text after the IN list: joins, grouping, ordering and the LIMIT clause. */
  function QueryEnd(): string {
    Lines(QueryTail) + QueryLimit
  }

  /** The text of the statement that creates and fills the result table. */
  function RankingQuery(table: string, genreCount: nat): string {
    QueryHead(table) + PlaceholderList(genreCount) + QueryEnd()
  }

  lemma ColumnsHaveNoPercent()
    ensures PercentCount(Lines(QueryColumns)) == 0
  {
    assert forall k :: 0 <= k < 7 ==> '%' !in QueryColumns[k];
    assert forall k :: 7 <= k < |QueryColumns| ==> '%' !in QueryColumns[k];
    LinesHaveNoPercent(QueryColumns);
  }

  lemma ScoreHasNoPercent()
    ensures PercentCount(Lines(QueryScore)) == 0
  {
    assert forall k :: 0 <= k < |QueryScore| ==> '%' !in QueryScore[k];
    LinesHaveNoPercent(QueryScore);
  }

  lemma TailHasNoPercent()
    ensures PercentCount(Lines(QueryTail)) == 0
  {
    assert forall k :: 0 <= k < |QueryTail| ==> '%' !in QueryTail[k];
    LinesHaveNoPercent(QueryTail);
  }

  /** Proof aid: the text before the table name holds no `%`. */
  lemma CreateHasNoPercent()
    ensures PercentCount(QueryCreate) == 0
  {
    assert '%' !in QueryCreate;
  }

  /** Proof aid: the LIMIT line holds the statement's last placeholder. */
  lemma LimitHasOnePlaceholder()
    ensures PercentCount(QueryLimit) == 1
  {
    var word, mark := " LIMIT ", "%s";
    assert QueryLimit == word + mark;
    assert '%' !in word;
    assert mark[1..] == "s" && '%' !in mark[1..];
    PercentCountAppend(word, mark);
  }

  /** The text before the IN list holds no placeholder. */
  lemma HeadHasNoPercent(table: string)
    requires '%' !in table
    ensures PercentCount(QueryHead(table)) == 0
  {
    var columns, arms, score := Lines(QueryColumns), IconArms(IconTable), Lines(QueryScore);
    CreateHasNoPercent();
    ColumnsHaveNoPercent();
    IconTableHasNoPercent();
    IconArmsHaveNoPlaceholder(IconTable);
    ScoreHasNoPercent();
    PercentCountAppend(QueryCreate, table);
    PercentCountAppend(QueryCreate + table, columns);
    PercentCountAppend(QueryCreate + table + columns, arms);
    PercentCountAppend(QueryCreate + table + columns + arms, score);
  }

  /** The text after the IN list holds only the LIMIT placeholder. */
  lemma EndHasOnePlaceholder()
    ensures PercentCount(QueryEnd()) == 1
  {
    TailHasNoPercent();
    LimitHasOnePlaceholder();
    AppendCounts(Lines(QueryTail), QueryLimit, 0, 1);
  }

  /** `unique_genres + [total_requested]` */
  function RankingParams(genres: seq<string>, totalRequested: int): (ps: seq<Param>)
    ensures |ps| == |genres| + 1
    ensures forall k :: 0 <= k < |genres| ==> ps[k] == TextParam(genres[k])
    ensures ps[|genres|] == IntParam(totalRequested)
  {
    seq(|genres|, k requires 0 <= k < |genres| => TextParam(genres[k])) + [IntParam(totalRequested)]
  }

  /** The statement has one placeholder per genre in its IN list plus the LIMIT one: as many as its parameters. */
  lemma RankingQueryPlaceholders(table: string, genres: seq<string>, totalRequested: int)
    requires '%' !in table
    ensures PercentCount(RankingQuery(table, |genres|)) == |RankingParams(genres, totalRequested)|
  {
    HeadHasNoPercent(table);
    PlaceholdersAfterHead(QueryHead(table), |genres|);
  }

  lemma PlaceholdersAfterHead(head: string, n: nat)
    requires PercentCount(head) == 0
    ensures PercentCount(head + PlaceholderList(n) + QueryEnd()) == n + 1
  {
    var marks, end := PlaceholderList(n), QueryEnd();
    EndHasOnePlaceholder();
    AppendCounts(head, marks, 0, n);
    AppendCounts(head + marks, end, n, 1);
  }

  /** `(page - 1) * per_page`: negative (a syntax error for
      MySQL's OFFSET) exactly when the page number is below 1. */
  function Offset(page: int): (offset: int)
    ensures offset >= 0 <==> page >= 1
  {
    (page - 1) * PerPage
  }

  /** `(total + per_page - 1) // per_page`: the number of pages needed for `total` rows. */
  function TotalPages(total: nat): (n: nat)
    ensures n * PerPage >= total
    ensures n > 0 ==> (n - 1) * PerPage < total
  {
    (total + PerPage - 1) / PerPage
  }

  /** `hasMore`: there is a row after the current page. */
  lemma HasMoreIff(page: int, total: nat)
    ensures page < TotalPages(total) <==> page * PerPage < total
  {
  }

  /** `LIMIT 20 OFFSET offset` over the table's rows. */
  function PageRows(rows: seq<Row>, offset: nat): (r: seq<Row>)
    ensures |r| <= PerPage
    ensures offset >= |rows| ==> r == []
    ensures offset < |rows| ==> |r| == if |rows| - offset < PerPage then |rows| - offset else PerPage
    ensures forall j :: 0 <= j < |r| ==> offset + j < |rows| && r[j] == rows[offset + j]
  {
    if offset >= |rows| then [] else Take(rows[offset..], PerPage)
  }

  /** Pages 1..TotalPages hold every row exactly once: row i is entry i mod 20 of page i div 20 + 1. */
  lemma RowOnItsPage(rows: seq<Row>, i: nat)
    requires i < |rows|
    ensures 1 <= i / PerPage + 1 <= TotalPages(|rows|)
    ensures Offset(i / PerPage + 1) + i % PerPage == i
    ensures i % PerPage < |PageRows(rows, Offset(i / PerPage + 1))|
    ensures PageRows(rows, Offset(i / PerPage + 1))[i % PerPage] == rows[i]
  {
  }

  /** A page is non-empty exactly when it is one of pages 1..TotalPages. */
  lemma PageNonEmpty(rows: seq<Row>, page: int)
    requires page >= 1
    ensures PageRows(rows, Offset(page)) != [] <==> page <= TotalPages(|rows|)
  {
  }

  /** The row list as `SELECT *` returns it, each field passed through `json_serializable`. */
  function RowRecords(rows: seq<Row>): (recs: seq<Record>)
    ensures |recs| == |rows|
    ensures forall k :: 0 <= k < |rows| ==> recs[k] == SerializeRecord(RowRecord(rows[k]))
  {
    seq(|rows|, k requires 0 <= k < |rows| => SerializeRecord(RowRecord(rows[k])))
  }

  /** The body of a served page (source lines 133-144): page `page` of the stored rows, the
      total kept in the session, the page count and whether a row follows this page. */
  function PageOf(rows: seq<Row>, total: nat, page: int): (resp: Response)
    requires page >= 1
    ensures resp.PageResponse? && |resp.songs| <= PerPage
    ensures resp.total == total && resp.currentPage == page && resp.totalPages == TotalPages(total)
    ensures resp.hasMore <==> page * PerPage < total
  {
    HasMoreIff(page, total);
    PageResponse(RowRecords(PageRows(rows, Offset(page))), total, page, TotalPages(total), page < TotalPages(total))
  }

  /** The answer of source lines 120-144 for the table `name`, given the tables and the session's
      `total_results`: a failure exactly when the OFFSET is negative, the table is missing or the
      key is missing, and otherwise the served page. */
  function PageAnswer(tables: map<string, seq<Row>>, totalResults: Option<nat>, name: string, page: int): (resp: Response)
    ensures resp.Failure? <==> page < 1 || name !in tables || totalResults.None?
    ensures resp.PageResponse? ==> resp == PageOf(tables[name], totalResults.value, page)
  {
    if page < 1 then Failure(500, Raised(SqlSyntaxError))
    else if name !in tables then Failure(500, Raised(NoSuchTable(name)))
    else if totalResults.None? then Failure(500, Raised(MissingSessionKey("total_results")))
    else PageOf(tables[name], totalResults.value, page)
  }

  /** The result table holds no temporal column, so serialising changes no field. */
  lemma RowRecordsUnchanged(rows: seq<Row>)
    ensures forall k :: 0 <= k < |rows| ==> RowRecords(rows)[k] == RowRecord(rows[k])
  {
    forall k | 0 <= k < |rows| ensures RowRecords(rows)[k] == RowRecord(rows[k]) {
      SerializeReadyRecord(RowRecord(rows[k]));
    }
  }

  /** A generated table name carries no '%' into the statement text. */
  lemma TableNameHasNoPercent(suffix: HexSuffix)
    ensures '%' !in TablePrefix + suffix
  {
    var name := TablePrefix + suffix;
    forall i | 0 <= i < |name| ensures name[i] != '%' {
      if i >= |TablePrefix| {
        assert name[i] == suffix[i - |TablePrefix|];
      }
    }
  }

  /** The CREATE ... SELECT statement for a fresh table name and its parameters; the text has
      exactly one placeholder per parameter. */
  function RankingStatement(suffix: HexSuffix, genres: seq<string>, totalRequested: int): (st: Statement)
    ensures st.text == RankingQuery(TablePrefix + suffix, |genres|) && st.params == RankingParams(genres, totalRequested)
    ensures PercentCount(st.text) == |st.params|
  {
    TableNameHasNoPercent(suffix);
    RankingQueryPlaceholders(TablePrefix + suffix, genres, totalRequested);
    Statement(RankingQuery(TablePrefix + suffix, |genres|), RankingParams(genres, totalRequested))
  }

  /** The Flask session: only the two keys this endpoint uses. */
  class Session {
    var searchTable: Option<string>
    var totalResults: Option<nat>

    constructor ()
      ensures searchTable == None && totalResults == None
    {
      searchTable := None;
      totalResults := None;
    }
  }

  /** The database: the read-only catalog the joins see, and the result tables created so far. */
  class Database {
    const catalog: seq<Song>
    var tables: map<string, seq<Row>>

    constructor (catalog: seq<Song>)
      ensures this.catalog == catalog && tables == map[]
    {
      this.catalog := catalog;
      tables := map[];
    }
  }

  /** The cache decision and the recompute (source lines 42-118). `reportedExists` is the answer of
      the information_schema check; `suffix` stands for the uuid4 digits. */
  method RefreshResults(session: Session, db: Database, request: Request, reportedExists: bool, suffix: HexSuffix)
    returns (fault: Option<Fault>, executed: Option<Statement>)
    modifies session, db
    ensures old(session.searchTable).Some? && reportedExists ==>
      fault == None && executed == None && session.searchTable == old(session.searchTable) &&
      session.totalResults == old(session.totalResults) && db.tables == old(db.tables)
    ensures old(session.searchTable).None? || !reportedExists ==>
      var name := TablePrefix + suffix;
      var genres := UniqueGenres(request.bands);
      && session.searchTable == Some(name)
      && executed == Some(RankingStatement(suffix, genres, request.totalRequested))
      && (genres == [] || request.totalRequested < 0 ==> fault == Some(SqlSyntaxError))
      && (genres != [] && request.totalRequested >= 0 && name in old(db.tables) ==> fault == Some(TableAlreadyExists(name)))
      && (fault == None <==> genres != [] && request.totalRequested >= 0 && name !in old(db.tables))
      && (fault == None ==>
            db.tables == old(db.tables)[name := Rank(db.catalog, genres, request.totalRequested)] &&
            session.totalResults == Some(|Rank(db.catalog, genres, request.totalRequested)|))
      && (fault != None ==> db.tables == old(db.tables) && session.totalResults == old(session.totalResults))
  {
    var tableExists := session.searchTable.Some? && reportedExists;
    fault, executed := None, None;
    if !tableExists {
      var name := TablePrefix + suffix;
      session.searchTable := Some(name);
      var genreList := CollectGenres(request.bands);
      var uniqueGenres := Unique(genreList);
      executed := Some(RankingStatement(suffix, uniqueGenres, request.totalRequested));
      // An empty IN () list and a negative LIMIT are both rejected by the server.
      if uniqueGenres == [] || request.totalRequested < 0 {
        fault := Some(SqlSyntaxError);
        return;
      }
      if name in db.tables {
        fault := Some(TableAlreadyExists(name));
        return;
      }
      var rows := Rank(db.catalog, uniqueGenres, request.totalRequested);
      db.tables := db.tables[name := rows];
      session.totalResults := Some(|rows|);
    }
  }

  /** The page query and the response (source lines 120-144). A negative OFFSET is a syntax
      error, which the server reports before it looks the table up. */
  method FetchPage(session: Session, db: Database, page: int) returns (resp: Response)
    requires session.searchTable.Some?
    ensures page < 1 ==> resp == Failure(500, Raised(SqlSyntaxError))
    ensures var name := session.searchTable.value;
      && (page >= 1 && name !in db.tables ==> resp == Failure(500, Raised(NoSuchTable(name))))
      && (page >= 1 && name in db.tables && session.totalResults.None? ==>
            resp == Failure(500, Raised(MissingSessionKey("total_results"))))
      && (page >= 1 && name in db.tables && session.totalResults.Some? ==>
            resp == PageOf(db.tables[name], session.totalResults.value, page))
    ensures resp.PageResponse? ==> |resp.songs| <= PerPage
    ensures resp == PageAnswer(db.tables, session.totalResults, session.searchTable.value, page)
  {
    var name := session.searchTable.value;
    var offset := Offset(page);
    if offset < 0 {
      return Failure(500, Raised(SqlSyntaxError));
    }
    if name !in db.tables {
      return Failure(500, Raised(NoSuchTable(name)));
    }
    var songs := RowRecords(PageRows(db.tables[name], offset));
    if session.totalResults.None? {
      return Failure(500, Raised(MissingSessionKey("total_results")));
    }
    var total := session.totalResults.value;
    var totalPages := (total + PerPage - 1) / PerPage;
    resp := PageResponse(songs, total, page, totalPages, page < totalPages);
    assert resp == PageOf(db.tables[name], total, page);
  }

  /** `get_songs_by_bands`. `connected` is whether a connection was obtained. */
  method GetSongsByBands(session: Session, db: Database, connected: bool, body: Option<Body>,
                         reportedExists: bool, suffix: HexSuffix) returns (resp: Response, executed: Option<Statement>)
    modifies session, db
    ensures !connected ==> resp == Failure(500, Text("Database connection failed"))
    ensures connected && Validate(body).Rejected? ==> resp == Validate(body).response
    ensures !connected || Validate(body).Rejected? ==>
      session.searchTable == old(session.searchTable) && session.totalResults == old(session.totalResults) &&
      db.tables == old(db.tables)
    ensures connected && Validate(body).Accepted? && old(session.searchTable).Some? && reportedExists ==>
      session.searchTable == old(session.searchTable) && session.totalResults == old(session.totalResults) &&
      db.tables == old(db.tables)
    ensures connected && Validate(body).Accepted? && old(session.searchTable).Some? && reportedExists ==>
      resp == PageAnswer(old(db.tables), old(session.totalResults), old(session.searchTable).value, Validate(body).request.page)
    ensures connected && Validate(body).Accepted? && (old(session.searchTable).None? || !reportedExists) ==>
      var request := Validate(body).request;
      var name := TablePrefix + suffix;
      var genres := UniqueGenres(request.bands);
      && session.searchTable == Some(name)
      && executed == Some(RankingStatement(suffix, genres, request.totalRequested))
      && (genres == [] || request.totalRequested < 0 ==>
            resp == Failure(500, Raised(SqlSyntaxError)) && db.tables == old(db.tables) &&
            session.totalResults == old(session.totalResults))
      && (genres != [] && request.totalRequested >= 0 && name in old(db.tables) ==>
            resp == Failure(500, Raised(TableAlreadyExists(name))) && db.tables == old(db.tables) &&
            session.totalResults == old(session.totalResults))
      && (genres != [] && request.totalRequested >= 0 && name !in old(db.tables) ==>
            var rows := Rank(db.catalog, genres, request.totalRequested);
            && db.tables == old(db.tables)[name := rows]
            && session.totalResults == Some(|rows|)
            && resp == PageAnswer(db.tables, session.totalResults, name, request.page))
    ensures executed.Some? <==> connected && Validate(body).Accepted? && (old(session.searchTable).None? || !reportedExists)
    ensures resp.PageResponse? ==>
      connected && Validate(body).Accepted? && session.searchTable.Some? &&
      resp == PageAnswer(db.tables, session.totalResults, session.searchTable.value, Validate(body).request.page)
  {
    if !connected {
      return Failure(500, Text("Database connection failed")), None;
    }
    var checked := Validate(body);
    if checked.Rejected? {
      return checked.response, None;
    }
    var request := checked.request;
    var fault;
    fault, executed := RefreshResults(session, db, request, reportedExists, suffix);
    if fault.Some? {
      return Failure(500, Raised(fault.value)), executed;
    }
    resp := FetchPage(session, db, request.page);
  }
}
