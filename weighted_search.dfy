/**
 * The POST /api/songs_weighted endpoint: the body checks, one CASE arm per
 * weighted genre, the IN placeholder list, the parameter vector that carries
 * every genre twice, and the serialised top-20 answer.
 */
module WeightedSearch {
  import opened Text
  import opened Serialize

  const MaxRows: nat := 20

  /** The text `str(float(w))` gives for a weight that converts. It is a Python
      float rendering ("1.5", "1e+20", "inf", ...), which never holds a '%'. */
  type WeightText = s: string | '%' !in s witness "1.0"

  /** A `weight` value as `float()` sees it: either it converts, or `float()`
      raises with the given message. */
  datatype Weight = Float(rendered: WeightText) | NotAFloat(message: string)

  /** One object of the `genres` list; a None field is an absent key. */
  datatype Entry = Entry(genre: Option<string>, weight: Option<Weight>)

  /** The JSON body; `genres` is None when the key is absent. */
  datatype Body = Body(genres: Option<seq<Entry>>)

  /** What an exception raised inside the endpoint's `try` reports. */
  datatype Fault =
    | MissingKey(key: string)          // KeyError on `genre_data[...]`
    | BadWeight(message: string)       // ValueError or TypeError from `float()`
    | DatabaseError(message: string)   // raised by `execute` or `fetchall`

  datatype ErrorBody = Text(message: string) | Raised(fault: Fault)

  datatype Response = Songs(songs: seq<Record>) | Failure(status: int, error: ErrorBody)

  /** What the database returns for the statement: the grouped, filtered and
      ordered rows before the LIMIT, or the error it raises. */
  datatype Answer = Rows(rows: seq<Record>) | Refused(message: string)

  /** A statement as handed to `cursor.execute`. */
  datatype Statement = Statement(text: string, params: seq<string>)

  /** The checks made before the `try`. */
  function Validate(body: Option<Body>): (r: Option<Response>)
    ensures (body.None? || body.value.genres.None?) ==> r == Some(Failure(400, Text("No genres provided")))
    ensures body.Some? && body.value.genres == Some([]) ==> r == Some(Failure(400, Text("Empty genres list")))
    ensures r.None? <==> body.Some? && body.value.genres.Some? && body.value.genres.value != []
  {
    if body.None? || body.value.genres.None? then Some(Failure(400, Text("No genres provided")))
    else if body.value.genres.value == [] then Some(Failure(400, Text("Empty genres list")))
    else None
  }

  /** An entry the loop body gets through: both keys present and the weight converts. */
  predicate WellFormed(e: Entry) {
    e.genre.Some? && e.weight.Some? && e.weight.value.Float?
  }

  /** The exception one entry raises: the `genre` lookup runs first, then the `weight` lookup, then `float()`. */
  function EntryFault(e: Entry): (r: Option<Fault>)
    ensures r.None? <==> WellFormed(e)
    ensures e.genre.None? ==> r == Some(MissingKey("genre"))
    ensures e.genre.Some? && e.weight.None? ==> r == Some(MissingKey("weight"))
    ensures e.genre.Some? && e.weight.Some? && e.weight.value.NotAFloat? ==> r == Some(BadWeight(e.weight.value.message))
  {
    if e.genre.None? then Some(MissingKey("genre"))
    else if e.weight.None? then Some(MissingKey("weight"))
    else match e.weight.value
      case NotAFloat(m) => Some(BadWeight(m))
      case Float(_) => None
  }

  /** The exception the loop stops at: that of the first entry that is not well formed. */
  function FirstFault(entries: seq<Entry>): (r: Option<Fault>)
    ensures r.None? <==> forall k :: 0 <= k < |entries| ==> WellFormed(entries[k])
    ensures r.Some? ==> exists k :: (0 <= k < |entries| && !WellFormed(entries[k]) && r == EntryFault(entries[k]) &&
      forall j :: 0 <= j < k ==> WellFormed(entries[j]))
  {
    if |entries| == 0 then None
    else if !WellFormed(entries[0]) then EntryFault(entries[0])
    else
      var r := FirstFault(entries[1..]);
      assert forall k :: 0 < k < |entries| ==> entries[k] == entries[1..][k - 1];
      assert r.Some? ==> exists k :: (0 <= k < |entries| && !WellFormed(entries[k]) && r == EntryFault(entries[k]) &&
        forall j :: 0 <= j < k ==> WellFormed(entries[j]))
      by {
        if r.Some? {
          var k :| 0 <= k < |entries[1..]| && !WellFormed(entries[1..][k]) && r == EntryFault(entries[1..][k]) &&
            forall j :: 0 <= j < k ==> WellFormed(entries[1..][j]);
          assert !WellFormed(entries[k + 1]) && r == EntryFault(entries[k + 1]);
          assert forall j :: 0 <= j < k + 1 ==> WellFormed(entries[j]);
        }
      }
      r
  }

  /** The first entry that is not well formed is the one the fault comes from. */
  lemma FirstFaultAt(entries: seq<Entry>, i: nat)
    requires i < |entries| && !WellFormed(entries[i])
    requires forall j :: 0 <= j < i ==> WellFormed(entries[j])
    ensures FirstFault(entries) == EntryFault(entries[i])
  {
    var r := FirstFault(entries);
    var k :| 0 <= k < |entries| && !WellFormed(entries[k]) && r == EntryFault(entries[k]) &&
      forall j :: 0 <= j < k ==> WellFormed(entries[j]);
    assert k >= i && i >= k;
  }

  const CaseWhen: string := "WHEN g.genre_name = "
  const CaseMark: string := "%s"
  const CaseThen: string := " THEN "

  /** `f"WHEN g.genre_name = %s THEN {weight}"`: the genre goes to a placeholder, the weight is inlined. */
  function CaseClause(weight: WeightText): string {
    CaseWhen + CaseMark + CaseThen + weight
  }

  /** Each CASE arm holds exactly one placeholder: the genre's. */
  lemma CaseClausePlaceholder(weight: WeightText)
    ensures PercentCount(CaseClause(weight)) == 1
  {
    CaseTextPlaceholders();
    ClausePieces(CaseWhen, CaseMark, CaseThen, weight);
  }

  lemma CaseTextPlaceholders()
    ensures PercentCount(CaseWhen) == 0 && PercentCount(CaseMark) == 1 && PercentCount(CaseThen) == 0
  {
    assert '%' !in CaseWhen && '%' !in CaseThen;
    assert CaseMark[1..] == "s";
  }

  lemma ClausePieces(head: string, mark: string, tail: string, weight: string)
    requires PercentCount(head) == 0 && PercentCount(mark) == 1 && PercentCount(tail) == 0 && '%' !in weight
    ensures PercentCount(head + mark + tail + weight) == 1
  {
    AppendCounts(head, mark, 0, 1);
    AppendCounts(head + mark, tail, 1, 0);
    AppendCounts(head + mark + tail, weight, 1, 0);
  }

  /** `genre_cases` after the loop, for entries that are all well formed. */
  function CaseClauses(entries: seq<Entry>): (cases: seq<string>)
    requires forall k :: 0 <= k < |entries| ==> WellFormed(entries[k])
    ensures |cases| == |entries|
  {
    seq(|entries|, k requires 0 <= k < |entries| && WellFormed(entries[k]) => CaseClause(entries[k].weight.value.rendered))
  }

  /** `genre_values` after the loop, for entries that are all well formed. */
  function GenreValues(entries: seq<Entry>): (values: seq<string>)
    requires forall k :: 0 <= k < |entries| ==> WellFormed(entries[k])
    ensures |values| == |entries|
  {
    seq(|entries|, k requires 0 <= k < |entries| && WellFormed(entries[k]) => entries[k].genre.value)
  }

  /** The loop over the request's entries (source lines 56-62): it stops at the first entry that raises,
      and otherwise builds one CASE arm and one value per entry, in request order. */
  method BuildCases(entries: seq<Entry>) returns (cases: seq<string>, values: seq<string>, fault: Option<Fault>)
    ensures fault == FirstFault(entries)
    ensures fault.None? ==> cases == CaseClauses(entries) && values == GenreValues(entries)
  {
    cases, values, fault := [], [], None;
    var i := 0;
    while i < |entries|
      invariant 0 <= i <= |entries|
      invariant forall j :: 0 <= j < i ==> WellFormed(entries[j])
      invariant cases == CaseClauses(entries[..i]) && values == GenreValues(entries[..i])
    {
      var e := entries[i];
      if e.genre.None? {
        fault := Some(MissingKey("genre"));
        FirstFaultAt(entries, i);
        return;
      }
      if e.weight.None? {
        fault := Some(MissingKey("weight"));
        FirstFaultAt(entries, i);
        return;
      }
      match e.weight.value {
        case NotAFloat(m) =>
          fault := Some(BadWeight(m));
          FirstFaultAt(entries, i);
          return;
        case Float(w) =>
          cases := cases + [CaseClause(w)];
          values := values + [e.genre.value];
      }
      i := i + 1;
    }
    assert entries[..i] == entries;
  }

  /** The statement text up to the CASE arms. */
  const QueryHead: seq<string> := [
    "SELECT s.*,",
    " GROUP_CONCAT(DISTINCT",
    " g.genre_name)",
    " as genres,",
    " GROUP_CONCAT(DISTINCT",
    " a.arrangement_name)",
    " as arrangements,",
    " SUM(CASE "
  ]

  /** From the end of the CASE arms to the IN list. */
  const QueryMiddle: seq<string> := [
    " ELSE 0 END)",
    " as genre_score",
    " FROM songs s",
    " LEFT JOIN",
    " song_genres sg",
    " ON s.id = sg.song_id",
    " LEFT JOIN genres g",
    " ON sg.genre_id = g.id",
    " LEFT JOIN",
    " song_arrangements sa",
    " ON s.id = sa.song_id",
    " LEFT JOIN",
    " arrangements a",
    " ON sa.arrangement_id",
    " = a.id",
    " WHERE g.genre_name",
    " IN ("
  ]

  /** From the end of the IN list to the end of the statement. */
  const QueryTail: seq<string> := [
    ") GROUP BY s.id",
    " HAVING",
    " genre_score > 0",
    " ORDER BY",
    " genre_score DESC",
    " LIMIT 20"
  ]

  /** `query.format(genre_cases="\n".join(cases), genre_list=','.join(['%s'] * n))` */
  function WeightedQuery(cases: seq<string>, n: nat): string {
    Lines(QueryHead) + Join(cases, "\n") + Lines(QueryMiddle) + PlaceholderList(n) + Lines(QueryTail)
  }

  /** `genre_values + genre_values` */
  function WeightedParams(values: seq<string>): (ps: seq<string>)
    ensures |ps| == 2 * |values|
    ensures forall k :: 0 <= k < |values| ==> ps[k] == values[k] && ps[|values| + k] == values[k]
  {
    values + values
  }

  /** The statement `execute` receives when every entry is well formed. */
  function WeightedStatement(entries: seq<Entry>): Statement
    requires forall k :: 0 <= k < |entries| ==> WellFormed(entries[k])
  {
    var values := GenreValues(entries);
    Statement(WeightedQuery(CaseClauses(entries), |values|), WeightedParams(values))
  }

  lemma HeadHasNoPercent()
    ensures PercentCount(Lines(QueryHead)) == 0
  {
    assert forall k :: 0 <= k < |QueryHead| ==> '%' !in QueryHead[k];
    LinesHaveNoPercent(QueryHead);
  }

  lemma MiddleHasNoPercent()
    ensures PercentCount(Lines(QueryMiddle)) == 0
  {
    assert forall k :: 0 <= k < |QueryMiddle| ==> '%' !in QueryMiddle[k];
    LinesHaveNoPercent(QueryMiddle);
  }

  lemma TailHasNoPercent()
    ensures PercentCount(Lines(QueryTail)) == 0
  {
    assert '%' !in QueryTail[0] && '%' !in QueryTail[1] && '%' !in QueryTail[2];
    assert '%' !in QueryTail[3] && '%' !in QueryTail[4] && '%' !in QueryTail[5];
    LinesHaveNoPercent(QueryTail);
  }

  /** The CASE arms joined by newlines hold one placeholder per entry. */
  lemma CasesPlaceholders(entries: seq<Entry>)
    requires forall k :: 0 <= k < |entries| ==> WellFormed(entries[k])
    ensures PercentCount(Join(CaseClauses(entries), "\n")) == |entries|
  {
    var cases := CaseClauses(entries);
    forall c | c in cases ensures PercentCount(c) == 1 {
      var k :| 0 <= k < |cases| && cases[k] == c;
      CaseClausePlaceholder(entries[k].weight.value.rendered);
    }
    assert '%' !in "\n";
    PercentCountJoin(cases, "\n");
  }

  /** The statement has n placeholders in its CASE arms and n in its IN list: one per parameter. */
  lemma StatementPlaceholders(entries: seq<Entry>)
    requires forall k :: 0 <= k < |entries| ==> WellFormed(entries[k])
    ensures PercentCount(WeightedStatement(entries).text) == |WeightedStatement(entries).params| == 2 * |entries|
  {
    CasesPlaceholders(entries);
    HeadHasNoPercent();
    MiddleHasNoPercent();
    TailHasNoPercent();
    FivePieces(Lines(QueryHead), Join(CaseClauses(entries), "\n"), Lines(QueryMiddle),
      PlaceholderList(|entries|), Lines(QueryTail), |entries|);
  }

  lemma FivePieces(head: string, cases: string, middle: string, marks: string, tail: string, n: nat)
    requires PercentCount(head) == 0 && PercentCount(cases) == n && PercentCount(middle) == 0
    requires PercentCount(marks) == n && PercentCount(tail) == 0
    ensures PercentCount(head + cases + middle + marks + tail) == 2 * n
  {
    AppendCounts(head, cases, 0, n);
    AppendCounts(head + cases, middle, n, 0);
    AppendCounts(head + cases + middle, marks, n, n);
    AppendCounts(head + cases + middle + marks, tail, 2 * n, 0);
  }

  /** Arm k of the CASE carries entry k's weight and matches the genre in parameter k;
      the IN list's placeholder k is bound to the same genre. */
  lemma ParamsFollowEntries(entries: seq<Entry>)
    requires forall k :: 0 <= k < |entries| ==> WellFormed(entries[k])
    ensures var st := WeightedStatement(entries);
      forall k :: 0 <= k < |entries| ==>
        CaseClauses(entries)[k] == CaseWhen + CaseMark + CaseThen + entries[k].weight.value.rendered &&
        st.params[k] == entries[k].genre.value && st.params[|entries| + k] == entries[k].genre.value
  {
  }

  /** `get_songs`. `connected` is whether a connection was obtained; `answer` is what the
      database returns for the statement, before its LIMIT 20. */
  method GetSongs(connected: bool, body: Option<Body>, answer: Answer) returns (resp: Response, executed: Option<Statement>)
    ensures !connected ==> resp == Failure(500, Text("Database connection failed")) && executed == None
    ensures connected && Validate(body).Some? ==> resp == Validate(body).value && executed == None
    ensures connected && Validate(body).None? && FirstFault(body.value.genres.value).Some? ==>
      resp == Failure(500, Raised(FirstFault(body.value.genres.value).value)) && executed == None
    ensures executed.Some? <==> connected && Validate(body).None? && FirstFault(body.value.genres.value).None?
    ensures executed.Some? ==>
      var entries := body.value.genres.value;
      && executed.value == WeightedStatement(entries)
      && PercentCount(executed.value.text) == |executed.value.params|
      && (answer.Refused? ==> resp == Failure(500, Raised(DatabaseError(answer.message))))
      && (answer.Rows? ==> resp == Songs(SerializeRows(Take(answer.rows, MaxRows))))
    ensures resp.Songs? ==> |resp.songs| <= MaxRows && forall k :: 0 <= k < |resp.songs| ==> RecordReady(resp.songs[k])
  {
    executed := None;
    if !connected {
      return Failure(500, Text("Database connection failed")), executed;
    }
    var invalid := Validate(body);
    if invalid.Some? {
      return invalid.value, executed;
    }
    var entries := body.value.genres.value;
    var cases, values, fault := BuildCases(entries);
    if fault.Some? {
      return Failure(500, Raised(fault.value)), executed;
    }
    var statement := Statement(WeightedQuery(cases, |values|), WeightedParams(values));
    StatementPlaceholders(entries);
    executed := Some(statement);
    match answer {
      case Refused(m) =>
        resp := Failure(500, Raised(DatabaseError(m)));
      case Rows(rows) =>
        resp := Songs(SerializeRows(Take(rows, MaxRows)));
    }
  }
}
