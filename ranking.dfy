/**
 * What the band-selection ranking query computes, as a pure function over an
 * abstract catalog: the grouped rows of `songs` joined with their genres and
 * arrangements, the COUNT(DISTINCT ...) match score, the HAVING filter, the
 * ORDER BY score DESC, title and the LIMIT, plus the arrangement-to-icon CASE.
 */
module Ranking {
  import opened Text
  import opened Serialize

  /** One song of the catalog with the names reached through its genre and arrangement links. */
  datatype Song = Song(id: int, title: string, artist: string, genres: seq<string>, arrangements: seq<string>)

  /** One row of the per-session result table. */
  datatype Row = Row(id: int, title: string, artist: string, genres: seq<string>, icons: seq<string>, score: nat)

  /** The CASE arms that map an arrangement name to its icon file. */
  const IconTable: seq<(string, string)> := [
    ("ai_bass", "iconAIBass.png"),
    ("ai_chord", "iconAIChord.png"),
    ("bass", "iconBass.png"),
    ("lead", "iconLead.png"),
    ("rhythm", "iconRhythm.png"),
    ("keyboard", "iconKeyboard.png"),
    ("simple_keyboard", "iconSimpleKeyboard.png"),
    ("alt_lead", "iconALTLead.png"),
    ("alt_bass", "iconALTBass.png"),
    ("simple_guitar", "iconSimpleGuitar.png"),
    ("alt_rhythm", "iconALTRhythm.png")
  ]

  /** The first arm whose value equals the name, as a simple CASE picks it; None is the ELSE NULL. */
  function Lookup(table: seq<(string, string)>, name: string): (r: Option<string>)
    ensures r.None? <==> forall k :: 0 <= k < |table| ==> table[k].0 != name
    ensures r.Some? ==> exists k :: 0 <= k < |table| && table[k] == (name, r.value)
  {
    if |table| == 0 then None
    else if table[0].0 == name then Some(table[0].1)
    else
      var r := Lookup(table[1..], name);
      assert r.Some? ==> exists k :: 0 <= k < |table[1..]| && table[1..][k] == (name, r.value);
      r
  }

  function IconFor(arrangement: string): Option<string> {
    Lookup(IconTable, arrangement)
  }

  /** No arrangement name is listed twice, so every arm is reachable. */
  lemma IconNamesDistinct()
    ensures forall i, j :: 0 <= i < j < |IconTable| ==> IconTable[i].0 != IconTable[j].0
  {
  }

  lemma {:induction false} LookupListed(table: seq<(string, string)>, k: nat)
    requires k < |table|
    requires forall i, j :: 0 <= i < j < |table| ==> table[i].0 != table[j].0
    ensures Lookup(table, table[k].0) == Some(table[k].1)
  {
    if k > 0 {
      assert table[0].0 != table[k].0;
      assert table[1..][k - 1] == table[k];
      LookupListed(table[1..], k - 1);
    }
  }

  /** Each listed arrangement maps to its own icon file; every other name maps to NULL. */
  lemma IconMapping()
    ensures forall k :: 0 <= k < |IconTable| ==> IconFor(IconTable[k].0) == Some(IconTable[k].1)
    ensures forall a :: (forall k :: 0 <= k < |IconTable| ==> IconTable[k].0 != a) ==> IconFor(a) == None
  {
    IconNamesDistinct();
    forall k | 0 <= k < |IconTable| ensures IconFor(IconTable[k].0) == Some(IconTable[k].1) {
      LookupListed(IconTable, k);
    }
  }

  /** The non-NULL icons of a list of arrangement names, in link order. */
  function IconsOf(arrangements: seq<string>): (icons: seq<string>)
    ensures forall i :: i in icons <==> exists a :: a in arrangements && IconFor(a) == Some(i)
  {
    if |arrangements| == 0 then []
    else
      var rest := IconsOf(arrangements[1..]);
      assert forall a :: a in arrangements <==> a == arrangements[0] || a in arrangements[1..];
      match IconFor(arrangements[0])
      case Some(i) => [i] + rest
      case None => rest
  }

  /** The genre names of a song that COUNT(DISTINCT CASE WHEN LOWER(g.genre_name) IN (...) ...) counts. */
  function MatchedGenres(song: Song, wanted: seq<string>): set<string> {
    set g | g in song.genres && Lower(g) in wanted
  }

  lemma {:induction false} CardinalityOfElements(xs: seq<string>)
    ensures |set x | x in xs| <= |xs|
  {
    if |xs| > 0 {
      CardinalityOfElements(xs[1..]);
      assert (set x | x in xs) == (set x | x in xs[1..]) + {xs[0]};
    }
  }

  lemma {:induction false} SubsetCardinality(a: set<string>, b: set<string>)
    requires a <= b
    ensures |a| <= |b|
    decreases |a|
  {
    if a != {} {
      var x :| x in a;
      SubsetCardinality(a - {x}, b - {x});
    }
  }

  /** match_score: the number of distinct genre names on the song whose lower-case form was requested. */
  function Score(song: Song, wanted: seq<string>): (n: nat)
    ensures n > 0 <==> exists g :: g in song.genres && Lower(g) in wanted
    ensures n <= |song.genres|
  {
    var m := MatchedGenres(song, wanted);
    CardinalityOfElements(song.genres);
    SubsetCardinality(m, set x | x in song.genres);
    assert forall g :: g in song.genres && Lower(g) in wanted ==> g in m;
    |m|
  }

  /** The grouped row of one song: its distinct genre names, its distinct icons and its score. */
  function ToRow(song: Song, wanted: seq<string>): (r: Row)
    ensures r.id == song.id && r.title == song.title && r.score == Score(song, wanted)
    ensures NoDuplicates(r.genres) && forall g :: g in r.genres <==> g in song.genres
    ensures NoDuplicates(r.icons) && forall i :: i in r.icons <==> i in IconsOf(song.arrangements)
  {
    Row(song.id, song.title, song.artist, Unique(song.genres), Unique(IconsOf(song.arrangements)), Score(song, wanted))
  }

  /** HAVING match_score > 0, in catalog order. */
  function Candidates(catalog: seq<Song>, wanted: seq<string>): (rows: seq<Row>)
    ensures |rows| <= |catalog|
    ensures forall r :: r in rows ==> r.score > 0
    ensures forall s :: s in catalog && Score(s, wanted) > 0 ==> ToRow(s, wanted) in rows
    ensures forall r :: r in rows ==> exists s :: s in catalog && r == ToRow(s, wanted)
  {
    if |catalog| == 0 then []
    else
      var rest := Candidates(catalog[1..], wanted);
      assert forall s :: s in catalog <==> s == catalog[0] || s in catalog[1..];
      if Score(catalog[0], wanted) > 0 then [ToRow(catalog[0], wanted)] + rest else rest
  }

  /** `songs.id` is the primary key: no two catalog songs share an id. */
  predicate DistinctIds(catalog: seq<Song>) {
    forall i, j :: 0 <= i < j < |catalog| ==> catalog[i].id != catalog[j].id
  }

  predicate DistinctRowIds(rows: seq<Row>) {
    forall i, j :: 0 <= i < j < |rows| ==> rows[i].id != rows[j].id
  }

  /** An id no catalog song has is the id of no candidate row. */
  lemma {:induction false} CandidatesAvoid(catalog: seq<Song>, wanted: seq<string>, id: int)
    requires forall k :: 0 <= k < |catalog| ==> catalog[k].id != id
    ensures forall k :: 0 <= k < |Candidates(catalog, wanted)| ==> Candidates(catalog, wanted)[k].id != id
  {
    if |catalog| > 0 {
      var tail := catalog[1..];
      assert forall k :: 0 <= k < |tail| ==> tail[k] == catalog[k + 1];
      CandidatesAvoid(tail, wanted, id);
      var rest := Candidates(tail, wanted);
      if Score(catalog[0], wanted) > 0 {
        var rows := [ToRow(catalog[0], wanted)] + rest;
        assert Candidates(catalog, wanted) == rows;
        assert forall k :: 0 < k < |rows| ==> rows[k] == rest[k - 1];
      }
    }
  }

  lemma PrependDistinct(head: Row, rest: seq<Row>)
    requires DistinctRowIds(rest)
    requires forall k :: 0 <= k < |rest| ==> rest[k].id != head.id
    ensures DistinctRowIds([head] + rest)
  {
    var rows := [head] + rest;
    forall i, j | 0 <= i < j < |rows| ensures rows[i].id != rows[j].id {
      assert rows[j] == rest[j - 1];
      if i > 0 { assert rows[i] == rest[i - 1]; }
    }
  }

  /** GROUP BY s.id over a catalog keyed by id yields one row per matching song. */
  lemma {:induction false} CandidatesDistinct(catalog: seq<Song>, wanted: seq<string>)
    requires DistinctIds(catalog)
    ensures DistinctRowIds(Candidates(catalog, wanted))
  {
    if |catalog| > 0 {
      var tail := catalog[1..];
      assert forall k :: 0 <= k < |tail| ==> tail[k] == catalog[k + 1];
      CandidatesDistinct(tail, wanted);
      if Score(catalog[0], wanted) > 0 {
        CandidatesAvoid(tail, wanted, catalog[0].id);
        PrependDistinct(ToRow(catalog[0], wanted), Candidates(tail, wanted));
      }
    }
  }

  /** ORDER BY match_score DESC, s.title: a ranks no later than b. */
  predicate RankLe(a: Row, b: Row) {
    a.score > b.score || (a.score == b.score && LexLe(a.title, b.title))
  }

  predicate Sorted(rows: seq<Row>) {
    forall i, j :: 0 <= i < j < |rows| ==> RankLe(rows[i], rows[j])
  }

  lemma RankLeTotal(a: Row, b: Row)
    ensures RankLe(a, b) || RankLe(b, a)
  {
    LexLeTotal(a.title, b.title);
  }

  lemma RankLeTransitive(a: Row, b: Row, c: Row)
    requires RankLe(a, b) && RankLe(b, c)
    ensures RankLe(a, c)
  {
    if a.score == b.score == c.score {
      LexLeTransitive(a.title, b.title, c.title);
    }
  }

  lemma PrependSorted(x: Row, rows: seq<Row>)
    requires Sorted(rows)
    requires forall y :: y in rows ==> RankLe(x, y)
    ensures Sorted([x] + rows)
  {
    forall i, j | 0 <= i < j < |rows| + 1 ensures RankLe(([x] + rows)[i], ([x] + rows)[j]) {
      assert ([x] + rows)[j] == rows[j - 1];
      if i > 0 { assert ([x] + rows)[i] == rows[i - 1]; }
    }
  }

  /** Insert one row into a sorted list. */
  function Insert(x: Row, rows: seq<Row>): (r: seq<Row>)
    requires Sorted(rows)
    ensures Sorted(r)
    ensures multiset(r) == multiset(rows) + multiset{x}
  {
    if |rows| == 0 then [x]
    else if RankLe(x, rows[0]) then
      forall y | y in rows ensures RankLe(x, y) {
        var j :| 0 <= j < |rows| && rows[j] == y;
        if j > 0 { RankLeTransitive(x, rows[0], rows[j]); }
      }
      PrependSorted(x, rows);
      [x] + rows
    else
      RankLeTotal(x, rows[0]);
      var tail := rows[1..];
      assert rows == [rows[0]] + tail;
      var rest := Insert(x, tail);
      forall y | y in rest ensures RankLe(rows[0], y) {
        assert y in multiset(rest);
        if y != x {
          assert y in tail;
          var j :| 0 <= j < |tail| && tail[j] == y;
          assert rows[j + 1] == y;
        }
      }
      PrependSorted(rows[0], rest);
      [rows[0]] + rest
  }

  /** The sort: a sorted permutation of its input. */
  function Sort(rows: seq<Row>): (r: seq<Row>)
    ensures Sorted(r)
    ensures multiset(r) == multiset(rows)
  {
    if |rows| == 0 then []
    else
      assert rows == [rows[0]] + rows[1..];
      Insert(rows[0], Sort(rows[1..]))
  }

  /** LIMIT n */
  lemma SameElements(a: seq<Row>, b: seq<Row>)
    requires multiset(a) == multiset(b)
    ensures |a| == |b|
    ensures forall x :: x in a <==> x in b
  {
    assert |multiset(a)| == |multiset(b)|;
    forall x ensures x in a <==> x in b {
      assert x in a <==> x in multiset(a);
      assert x in b <==> x in multiset(b);
    }
  }

  /** A row of a sorted list that a LIMIT cut off ranks no earlier than any row kept. */
  lemma TakeSortedComplete(sorted: seq<Row>, limit: nat, c: Row)
    requires Sorted(sorted) && c in sorted && c !in Take(sorted, limit)
    ensures |Take(sorted, limit)| == limit
    ensures forall x :: x in Take(sorted, limit) ==> RankLe(x, c)
  {
    var r := Take(sorted, limit);
    var k :| 0 <= k < |sorted| && sorted[k] == c;
    assert forall i :: 0 <= i < |r| ==> r[i] == sorted[i] && r[i] != c;
    assert k >= |r|;
    forall x | x in r ensures RankLe(x, c) {
      var j :| 0 <= j < |r| && r[j] == x;
      assert sorted[j] == x;
    }
  }

  /** The rows the ranking query stores: at most `limit` best-ranked matching songs. */
  function Rank(catalog: seq<Song>, wanted: seq<string>, limit: nat): (r: seq<Row>)
    ensures |r| == if limit < |Candidates(catalog, wanted)| then limit else |Candidates(catalog, wanted)|
    ensures Sorted(r)
    ensures multiset(r) <= multiset(Candidates(catalog, wanted))
    ensures forall x :: x in r ==> x.score > 0 && exists s :: s in catalog && x == ToRow(s, wanted)
    ensures forall s :: s in catalog && Score(s, wanted) > 0 && ToRow(s, wanted) !in r ==>
      |r| == limit && forall x :: x in r ==> RankLe(x, ToRow(s, wanted))
  {
    var cands := Candidates(catalog, wanted);
    var sorted := Sort(cands);
    SameElements(sorted, cands);
    var r := Take(sorted, limit);
    assert forall i :: 0 <= i < |r| ==> r[i] == sorted[i];
    assert forall x :: x in r ==> x in cands;
    TakeMultiset(sorted, limit);
    forall s | s in catalog && Score(s, wanted) > 0 && ToRow(s, wanted) !in r
      ensures |r| == limit && forall x :: x in r ==> RankLe(x, ToRow(s, wanted))
    {
      TakeSortedComplete(sorted, limit, ToRow(s, wanted));
    }
    r
  }

  /** The ranking keeps one row per matching song: none twice. */
  lemma RankDistinct(catalog: seq<Song>, wanted: seq<string>, limit: nat)
    requires DistinctIds(catalog)
    ensures NoDuplicates(Rank(catalog, wanted, limit))
  {
    var cands := Candidates(catalog, wanted);
    CandidatesDistinct(catalog, wanted);
    assert NoDuplicates(cands);
    SubMultisetNoDuplicates(Rank(catalog, wanted, limit), cands);
  }

  /** The temporary table's row as the page query returns it. match_score is a FLOAT
      column (single precision), so the driver returns a Python float: str() of a whole
      number n up to 2**24 is n's digits followed by ".0". */
  function RowRecord(row: Row): (rec: Record)
    ensures RecordReady(rec)
  {
    [ ("id", SqlInt(row.id)),
      ("title", SqlText(row.title)),
      ("artist", SqlText(row.artist)),
      ("genres", if row.genres == [] then SqlNull else SqlText(Join(row.genres, ","))),
      ("arrangements", if row.icons == [] then SqlNull else SqlText(Join(row.icons, ","))),
      ("match_score", SqlFloat(Show(row.score) + ".0")) ]
  }
}
