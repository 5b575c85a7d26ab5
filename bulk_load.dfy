/**
 * `fast_bulk_insert_songs` and `execute_batch_inserts`: the row loop that
 * parses each CSV row, interns genre, arrangement and region names into dense
 * ids, collects seven batch lists and flushes them every 1000 songs and once at
 * the end. The cursor is a sink that records each `executemany` it receives.
 */
module BulkLoad {
  import opened Text
  import opened CsvFields

  const BatchSize: nat := 1000

  /** The three interned name kinds: genres, arrangements and regions. */
  datatype Kind = Genre | Arrangement | Region

  /** One `executemany` call, named by its target table; its rows are the call's parameter list. */
  datatype Insert =
    | InsertNames(kind: Kind, names: seq<(int, string)>)      // genres / arrangements / regions
    | InsertSongs(songs: seq<SongTuple>)                      // songs
    | InsertLinks(kind: Kind, links: seq<(int, int)>)         // song_genres / song_arrangements / song_regions

  /** The seven lists handed to `execute_batch_inserts`. */
  datatype Batches = Batches(
    songs: seq<SongTuple>,
    genres: seq<(int, string)>,
    arrangements: seq<(int, string)>,
    regions: seq<(int, string)>,
    songGenres: seq<(int, int)>,
    songArrangements: seq<(int, int)>,
    songRegions: seq<(int, int)>)

  const NoBatches: Batches := Batches([], [], [], [], [], [], [])

  /** The lists of `a` followed by those of `b`, list by list. */
  function Cat(a: Batches, b: Batches): Batches {
    Batches(a.songs + b.songs, a.genres + b.genres, a.arrangements + b.arrangements, a.regions + b.regions,
      a.songGenres + b.songGenres, a.songArrangements + b.songArrangements, a.songRegions + b.songRegions)
  }

  /** The rows one call carries, placed in the list of its target table. */
  function Contribution(ins: Insert): Batches {
    match ins
    case InsertNames(Genre, n) => NoBatches.(genres := n)
    case InsertNames(Arrangement, n) => NoBatches.(arrangements := n)
    case InsertNames(Region, n) => NoBatches.(regions := n)
    case InsertSongs(s) => NoBatches.(songs := s)
    case InsertLinks(Genre, l) => NoBatches.(songGenres := l)
    case InsertLinks(Arrangement, l) => NoBatches.(songArrangements := l)
    case InsertLinks(Region, l) => NoBatches.(songRegions := l)
  }

  /** Every row a sequence of calls has sent, table by table, in call order. */
  function Sent(log: seq<Insert>): Batches {
    if |log| == 0 then NoBatches else Cat(Sent(log[..|log| - 1]), Contribution(log[|log| - 1]))
  }

  /** Proof aid: concatenating batch lists is associative. */
  lemma CatAssoc(x: Batches, y: Batches, z: Batches)
    ensures Cat(Cat(x, y), z) == Cat(x, Cat(y, z))
  {
  }

  /** Proof aid: the empty batch lists are a unit for concatenation. */
  lemma CatNone(x: Batches)
    ensures Cat(x, NoBatches) == x && Cat(NoBatches, x) == x
  {
  }

  lemma {:induction false} SentAppend(a: seq<Insert>, b: seq<Insert>)
    ensures Sent(a + b) == Cat(Sent(a), Sent(b))
  {
    if |b| == 0 {
      assert a + b == a;
      CatNone(Sent(a));
    } else {
      assert (a + b)[..|a + b| - 1] == a + b[..|b| - 1];
      SentAppend(a, b[..|b| - 1]);
      CatAssoc(Sent(a), Sent(b[..|b| - 1]), Contribution(b[|b| - 1]));
    }
  }

  /** Proof aid: sequence concatenation is associative. */
  lemma AppendAssoc<T>(a: seq<T>, b: seq<T>, c: seq<T>)
    ensures (a + b) + c == a + (b + c)
  {
  }

  /** A call that has rows to send. */
  predicate Carries(ins: Insert) {
    match ins
    case InsertNames(_, n) => n != []
    case InsertSongs(s) => s != []
    case InsertLinks(_, l) => l != []
  }

  /** `if batch: cursor.executemany(...)` */
  function Send(ins: Insert): seq<Insert> {
    if Carries(ins) then [ins] else []
  }

  lemma SentSend(ins: Insert)
    ensures Sent(Send(ins)) == Contribution(ins)
  {
    if Carries(ins) {
      assert Send(ins)[..0] == [];
      CatNone(Contribution(ins));
    }
  }

  /** The calls `execute_batch_inserts` makes: the three lookup tables, the songs, then the
      three link tables, skipping empty lists. */
  function BatchStatements(b: Batches): seq<Insert> {
    Send(InsertNames(Genre, b.genres)) + Send(InsertNames(Arrangement, b.arrangements))
      + Send(InsertNames(Region, b.regions)) + Send(InsertSongs(b.songs))
      + Send(InsertLinks(Genre, b.songGenres)) + Send(InsertLinks(Arrangement, b.songArrangements))
      + Send(InsertLinks(Region, b.songRegions))
  }

  /** The position of a call in `execute_batch_inserts`' fixed order. */
  function Stage(ins: Insert): nat {
    match ins
    case InsertNames(Genre, _) => 0
    case InsertNames(Arrangement, _) => 1
    case InsertNames(Region, _) => 2
    case InsertSongs(_) => 3
    case InsertLinks(Genre, _) => 4
    case InsertLinks(Arrangement, _) => 5
    case InsertLinks(Region, _) => 6
  }

  predicate Increasing(log: seq<Insert>) {
    forall i, j :: 0 <= i < j < |log| ==> Stage(log[i]) < Stage(log[j])
  }

  predicate Below(log: seq<Insert>, n: nat) {
    forall i :: 0 <= i < |log| ==> Stage(log[i]) < n && Carries(log[i])
  }

  lemma AppendSend(log: seq<Insert>, ins: Insert)
    requires Increasing(log) && Below(log, Stage(ins))
    ensures Increasing(log + Send(ins)) && Below(log + Send(ins), Stage(ins) + 1)
  {
  }

  /** `execute_batch_inserts` sends every list exactly once and whole; it makes no call
      without rows; lookups go before songs and songs before links. */
  lemma BatchStatementsSendEachList(b: Batches)
    ensures Sent(BatchStatements(b)) == b
    ensures forall i :: 0 <= i < |BatchStatements(b)| ==> Carries(BatchStatements(b)[i])
    ensures Increasing(BatchStatements(b))
    ensures BatchStatements(b) == [] <==> b == NoBatches
  {
    var c0, c1, c2, c3 := InsertNames(Genre, b.genres), InsertNames(Arrangement, b.arrangements),
      InsertNames(Region, b.regions), InsertSongs(b.songs);
    var c4, c5, c6 := InsertLinks(Genre, b.songGenres), InsertLinks(Arrangement, b.songArrangements),
      InsertLinks(Region, b.songRegions);
    var s1 := Send(c0);
    var s2 := s1 + Send(c1);
    var s3 := s2 + Send(c2);
    var s4 := s3 + Send(c3);
    var s5 := s4 + Send(c4);
    var s6 := s5 + Send(c5);
    var s7 := s6 + Send(c6);
    AppendSend([], c0);
    assert [] + Send(c0) == s1;
    AppendSend(s1, c1);
    AppendSend(s2, c2);
    AppendSend(s3, c3);
    AppendSend(s4, c4);
    AppendSend(s5, c5);
    AppendSend(s6, c6);
    SentSend(c0); SentSend(c1); SentSend(c2); SentSend(c3); SentSend(c4); SentSend(c5); SentSend(c6);
    SentAppend(s1, Send(c1));
    SentAppend(s2, Send(c2));
    SentAppend(s3, Send(c3));
    SentAppend(s4, Send(c4));
    SentAppend(s5, Send(c5));
    SentAppend(s6, Send(c6));
    assert s7 == BatchStatements(b);
    Reassemble(b);
  }

  /** Proof aid: the seven calls' rows, put back together, are the seven lists. */
  lemma Reassemble(b: Batches)
    ensures Cat(Cat(Cat(Cat(Cat(Cat(
      Contribution(InsertNames(Genre, b.genres)), Contribution(InsertNames(Arrangement, b.arrangements))),
      Contribution(InsertNames(Region, b.regions))), Contribution(InsertSongs(b.songs))),
      Contribution(InsertLinks(Genre, b.songGenres))), Contribution(InsertLinks(Arrangement, b.songArrangements))),
      Contribution(InsertLinks(Region, b.songRegions))) == b
  {
    var e: seq<SongTuple> := [];
    assert e + e + e + b.songs + e + e + e == b.songs;
    var n: seq<(int, string)> := [];
    assert b.genres + n + n + n + n + n + n == b.genres;
    assert n + b.arrangements + n + n + n + n + n == b.arrangements;
    assert n + n + b.regions + n + n + n + n == b.regions;
    var l: seq<(int, int)> := [];
    assert l + l + l + l + b.songGenres + l + l == b.songGenres;
    assert l + l + l + l + l + b.songArrangements + l == b.songArrangements;
    assert l + l + l + l + l + l + b.songRegions == b.songRegions;
  }

  /** The dict-plus-lists of one kind: `*_map`, its lookup batch and its link batch. */
  datatype Table = Table(ids: map<string, int>, batch: seq<(int, string)>, links: seq<(int, int)>)

  /** One pass of the inner loop body: a new name gets id len(map) + 1 and a lookup row;
      every name gets a link row. */
  function InternOne(t: Table, songId: int, name: string): (r: Table)
    ensures name in r.ids && r.links == t.links + [(songId, r.ids[name])]
    ensures name in t.ids ==> r.ids == t.ids && r.batch == t.batch
    ensures name !in t.ids ==> r.ids == t.ids[name := |t.ids| + 1] && r.batch == t.batch + [(|t.ids| + 1, name)]
  {
    if name in t.ids then t.(links := t.links + [(songId, t.ids[name])])
    else
      var id := |t.ids| + 1;
      Table(t.ids[name := id], t.batch + [(id, name)], t.links + [(songId, id)])
  }

  /** The inner loop over a row's names. */
  function InternAll(t: Table, songId: int, names: seq<string>): Table {
    if |names| == 0 then t
    else InternOne(InternAll(t, songId, names[..|names| - 1]), songId, names[|names| - 1])
  }

  /** `rows` lists the names of `ids` by id: row k is (k + 1, its name), and every name has its row. */
  predicate Enumerates(rows: seq<(int, string)>, ids: map<string, int>) {
    && |rows| == |ids|
    && (forall k :: 0 <= k < |rows| ==> rows[k].0 == k + 1 && rows[k].1 in ids && ids[rows[k].1] == k + 1)
    && (forall name :: name in ids ==> 1 <= ids[name] <= |rows| && rows[ids[name] - 1].1 == name)
  }

  /** What an enumeration says: ids are exactly 1..n, distinct names have distinct ids,
      and every name is listed exactly once. */
  lemma EnumeratesMeans(rows: seq<(int, string)>, ids: map<string, int>)
    requires Enumerates(rows, ids)
    ensures forall name :: name in ids ==> 1 <= ids[name] <= |ids|
    ensures forall a, b :: a in ids && b in ids && a != b ==> ids[a] != ids[b]
    ensures forall i, j :: 0 <= i < j < |rows| ==> rows[i].1 != rows[j].1
    ensures forall name :: name in ids <==> exists k :: 0 <= k < |rows| && rows[k].1 == name
  {
    forall name | name in ids ensures exists k :: 0 <= k < |rows| && rows[k].1 == name {
      assert rows[ids[name] - 1].1 == name;
    }
  }

  /** Link ids stay within the ids handed out so far. */
  predicate LinksValid(links: seq<(int, int)>, ids: map<string, int>) {
    forall k :: 0 <= k < |links| ==> 1 <= links[k].1 <= |ids|
  }

  /** What holds of one kind between rows: the lookup rows sent and pending enumerate the
      map, and every link sent or pending points at an id in it. */
  predicate TableOk(sentNames: seq<(int, string)>, sentLinks: seq<(int, int)>, t: Table) {
    Enumerates(sentNames + t.batch, t.ids) && LinksValid(sentLinks + t.links, t.ids)
  }

  lemma MapGrows(ids: map<string, int>, name: string, v: int)
    requires name !in ids
    ensures |ids[name := v]| == |ids| + 1
  {
    assert ids[name := v].Keys == ids.Keys + {name};
  }

  lemma EnumeratesExtend(rows: seq<(int, string)>, ids: map<string, int>, name: string)
    requires Enumerates(rows, ids) && name !in ids
    ensures Enumerates(rows + [(|ids| + 1, name)], ids[name := |ids| + 1])
  {
    var rows', ids' := rows + [(|ids| + 1, name)], ids[name := |ids| + 1];
    MapGrows(ids, name, |ids| + 1);
    forall k | 0 <= k < |rows'| ensures rows'[k].0 == k + 1 && rows'[k].1 in ids' && ids'[rows'[k].1] == k + 1 {
      if k < |rows| {
        assert rows'[k] == rows[k];
        assert rows[k].1 in ids;
      }
    }
    forall n | n in ids' ensures 1 <= ids'[n] <= |rows'| && rows'[ids'[n] - 1].1 == n {
      if n != name {
        assert rows'[ids[n] - 1] == rows[ids[n] - 1];
      }
    }
  }

  lemma LinksExtend(links: seq<(int, int)>, ids: map<string, int>, ids': map<string, int>, link: (int, int))
    requires LinksValid(links, ids) && |ids| <= |ids'| && 1 <= link.1 <= |ids'|
    ensures LinksValid(links + [link], ids')
  {
  }

  lemma InternOneKeeps(sentNames: seq<(int, string)>, sentLinks: seq<(int, int)>, t: Table, songId: int, name: string)
    requires TableOk(sentNames, sentLinks, t)
    ensures TableOk(sentNames, sentLinks, InternOne(t, songId, name))
  {
    var r := InternOne(t, songId, name);
    if name !in t.ids {
      EnumeratesExtend(sentNames + t.batch, t.ids, name);
      AppendAssoc(sentNames, t.batch, [(|t.ids| + 1, name)]);
      MapGrows(t.ids, name, |t.ids| + 1);
    }
    assert 1 <= r.ids[name] <= |r.ids|;
    LinksExtend(sentLinks + t.links, t.ids, r.ids, (songId, r.ids[name]));
    AppendAssoc(sentLinks, t.links, [(songId, r.ids[name])]);
  }

  /** Interning a row's names keeps the table consistent. */
  lemma {:induction false} InternAllKeeps(sentNames: seq<(int, string)>, sentLinks: seq<(int, int)>, t: Table, songId: int, names: seq<string>)
    requires TableOk(sentNames, sentLinks, t)
    ensures TableOk(sentNames, sentLinks, InternAll(t, songId, names))
  {
    if |names| > 0 {
      InternAllKeeps(sentNames, sentLinks, t, songId, names[..|names| - 1]);
      InternOneKeeps(sentNames, sentLinks, InternAll(t, songId, names[..|names| - 1]), songId, names[|names| - 1]);
    }
  }

  /** Interning never changes an id already handed out, and the map gains exactly the row's names. */
  lemma {:induction false} InternAllIds(t: Table, songId: int, names: seq<string>)
    ensures var r := InternAll(t, songId, names);
      && (forall n :: n in t.ids ==> n in r.ids && r.ids[n] == t.ids[n])
      && (forall n :: n in r.ids <==> n in t.ids || n in names)
  {
    if |names| > 0 {
      var init := names[..|names| - 1];
      InternAllIds(t, songId, init);
      assert forall n :: n in names <==> n in init || n == names[|names| - 1] by {
        assert names == init + [names[|names| - 1]];
      }
    }
  }

  /** Each of the row's names, in order, yields one link row: the song's id and the name's id. */
  lemma {:induction false} InternAllLinks(t: Table, songId: int, names: seq<string>)
    ensures var r := InternAll(t, songId, names);
      && |r.links| == |t.links| + |names| && r.links[..|t.links|] == t.links
      && forall k :: 0 <= k < |names| ==> names[k] in r.ids && r.links[|t.links| + k] == (songId, r.ids[names[k]])
  {
    if |names| > 0 {
      var init := names[..|names| - 1];
      InternAllLinks(t, songId, init);
      var mid := InternAll(t, songId, init);
      var r := InternAll(t, songId, names);
      InternAllIds(mid, songId, [names[|names| - 1]]);
      assert r == InternOne(mid, songId, names[|names| - 1]);
      forall k | 0 <= k < |names| ensures names[k] in r.ids && r.links[|t.links| + k] == (songId, r.ids[names[k]]) {
        if k < |init| {
          assert names[k] == init[k];
          assert r.links[|t.links| + k] == mid.links[|t.links| + k];
        }
      }
    }
  }

  /** The loop state of `fast_bulk_insert_songs`: the song batch, the three tables, the
      processed count, and every call made on the cursor so far. */
  datatype LoadState = LoadState(songs: seq<SongTuple>, genres: Table, arrangements: Table, regions: Table,
                                 total: nat, log: seq<Insert>)

  const Init: LoadState := LoadState([], Table(map[], [], []), Table(map[], [], []), Table(map[], [], []), 0, [])

  function TableOf(st: LoadState, k: Kind): Table {
    match k case Genre => st.genres case Arrangement => st.arrangements case Region => st.regions
  }

  /** The lookup rows and the link rows of one kind in a set of lists. */
  function NamesOfKind(b: Batches, k: Kind): seq<(int, string)> {
    match k case Genre => b.genres case Arrangement => b.arrangements case Region => b.regions
  }

  function LinksOfKind(b: Batches, k: Kind): seq<(int, int)> {
    match k case Genre => b.songGenres case Arrangement => b.songArrangements case Region => b.songRegions
  }

  /** The seven lists as they stand. */
  function Pending(st: LoadState): Batches {
    Batches(st.songs, st.genres.batch, st.arrangements.batch, st.regions.batch,
      st.genres.links, st.arrangements.links, st.regions.links)
  }

  /** `execute_batch_inserts(...)` followed by clearing the seven lists; the maps are kept. */
  function Flush(st: LoadState): (r: LoadState)
    ensures r.log == st.log + BatchStatements(Pending(st)) && Pending(r) == NoBatches
    ensures r.genres.ids == st.genres.ids && r.arrangements.ids == st.arrangements.ids && r.regions.ids == st.regions.ids
    ensures r.total == st.total
  {
    LoadState([], Table(st.genres.ids, [], []), Table(st.arrangements.ids, [], []),
      Table(st.regions.ids, [], []), st.total, st.log + BatchStatements(Pending(st)))
  }

  /** What each stage of one row's `try` body yields; None where that stage raises. */
  datatype Parsed = Parsed(song: Option<SongTuple>, genres: Option<seq<string>>,
                           arrangements: Option<seq<string>>, regions: Option<seq<string>>)

  function ParseRow(row: CsvRow): Parsed {
    Parsed(SongOf(row), NamesOf(row, "Genres"), NamesOf(row, "Arrangements"), NamesOf(row, "Available Regions"))
  }

  function ParseRows(rows: seq<CsvRow>): (ps: seq<Parsed>)
    ensures |ps| == |rows| && forall k :: 0 <= k < |rows| ==> ps[k] == ParseRow(rows[k])
  {
    seq(|rows|, k requires 0 <= k < |rows| => ParseRow(rows[k]))
  }

  /** A row gets through the `try` body without raising. */
  predicate Completes(p: Parsed) {
    p.song.Some? && p.genres.Some? && p.arrangements.Some? && p.regions.Some?
  }

  /** The `try` body of one iteration up to the flush check. A raising row stops where it
      raises: what it appended before stays and nothing after happens. */
  function Attempt(st: LoadState, p: Parsed): (r: LoadState)
    ensures r.log == st.log
    ensures r.songs == st.songs + (if p.song.Some? then [p.song.value] else [])
    ensures r.total == st.total + (if Completes(p) then 1 else 0)
  {
    match p.song
    case None => st
    case Some(song) =>
      var st1 := st.(songs := st.songs + [song]);
      match p.genres
      case None => st1
      case Some(gs) =>
        var st2 := st1.(genres := InternAll(st1.genres, song.id, gs));
        match p.arrangements
        case None => st2
        case Some(arrs) =>
          var st3 := st2.(arrangements := InternAll(st2.arrangements, song.id, arrs));
          match p.regions
          case None => st3
          case Some(regs) => st3.(regions := InternAll(st3.regions, song.id, regs), total := st3.total + 1)
  }

  /** One iteration of the row loop: the flush check runs only when the `try` body got to it. */
  function Step(st: LoadState, p: Parsed): LoadState {
    var a := Attempt(st, p);
    if Completes(p) && |a.songs| >= BatchSize then Flush(a) else a
  }

  /** The state after the loop has run over rows parsed as `ps`. */
  function Run(ps: seq<Parsed>): LoadState {
    if |ps| == 0 then Init else Step(Run(ps[..|ps| - 1]), ps[|ps| - 1])
  }

  /** Running over one more row is one more step. */
  lemma RunSnoc(rows: seq<CsvRow>, i: nat)
    requires i < |rows|
    ensures Run(ParseRows(rows[..i + 1])) == Step(Run(ParseRows(rows[..i])), ParseRow(rows[i]))
  {
    var ps := ParseRows(rows[..i + 1]);
    assert ps[..i] == ParseRows(rows[..i]);
  }

  /** The final `if song_batch:` flush. */
  function Finish(st: LoadState): LoadState {
    if st.songs != [] then Flush(st) else st
  }

  /** The whole run over the rows csv.DictReader yields: what the cursor receives and the
      count returned. */
  function Load(rows: seq<CsvRow>): LoadState {
    Finish(Run(ParseRows(rows)))
  }

  /** The song tuples of every row whose tuple could be built, in row order. */
  function ParsedSongs(ps: seq<Parsed>): seq<SongTuple> {
    if |ps| == 0 then []
    else ParsedSongs(ps[..|ps| - 1]) + (if ps[|ps| - 1].song.Some? then [ps[|ps| - 1].song.value] else [])
  }

  /** The number of rows that complete. */
  function CountCompleted(ps: seq<Parsed>): nat {
    if |ps| == 0 then 0 else CountCompleted(ps[..|ps| - 1]) + (if Completes(ps[|ps| - 1]) then 1 else 0)
  }

  /** What holds between rows. */
  predicate Invariant(st: LoadState) {
    var sent := Sent(st.log);
    && TableOk(sent.genres, sent.songGenres, st.genres)
    && TableOk(sent.arrangements, sent.songArrangements, st.arrangements)
    && TableOk(sent.regions, sent.songRegions, st.regions)
    && (st.songs == [] ==> Pending(st) == NoBatches)
  }

  /** A flush moves the pending lists to the cursor intact. */
  lemma FlushMoves(st: LoadState)
    ensures Sent(Flush(st).log) == Cat(Sent(st.log), Pending(st))
  {
    SentAppend(st.log, BatchStatements(Pending(st)));
    BatchStatementsSendEachList(Pending(st));
  }

  lemma TableFlush(sentNames: seq<(int, string)>, sentLinks: seq<(int, int)>, t: Table)
    requires TableOk(sentNames, sentLinks, t)
    ensures TableOk(sentNames + t.batch, sentLinks + t.links, Table(t.ids, [], []))
  {
    assert sentNames + t.batch + [] == sentNames + t.batch;
    assert sentLinks + t.links + [] == sentLinks + t.links;
  }

  lemma FlushKeeps(st: LoadState)
    requires Invariant(st)
    ensures Invariant(Flush(st))
  {
    FlushMoves(st);
    var sent := Sent(st.log);
    TableFlush(sent.genres, sent.songGenres, st.genres);
    TableFlush(sent.arrangements, sent.songArrangements, st.arrangements);
    TableFlush(sent.regions, sent.songRegions, st.regions);
  }

  /** Interning a row's names keeps the invariant, and so does the flush check. */
  lemma AttemptKeeps(st: LoadState, p: Parsed)
    requires Invariant(st)
    ensures Invariant(Attempt(st, p))
  {
    var sent := Sent(st.log);
    if p.song.Some? && p.genres.Some? {
      InternAllKeeps(sent.genres, sent.songGenres, st.genres, p.song.value.id, p.genres.value);
      if p.arrangements.Some? {
        InternAllKeeps(sent.arrangements, sent.songArrangements, st.arrangements, p.song.value.id, p.arrangements.value);
        if p.regions.Some? {
          InternAllKeeps(sent.regions, sent.songRegions, st.regions, p.song.value.id, p.regions.value);
        }
      }
    }
  }

  lemma StepKeeps(st: LoadState, p: Parsed)
    requires Invariant(st)
    ensures Invariant(Step(st, p))
  {
    AttemptKeeps(st, p);
    if Completes(p) && |Attempt(st, p).songs| >= BatchSize {
      FlushKeeps(Attempt(st, p));
    }
  }

  /** The loop keeps the invariant. */
  lemma {:induction false} RunInvariant(ps: seq<Parsed>)
    ensures Invariant(Run(ps))
  {
    if |ps| > 0 {
      RunInvariant(ps[..|ps| - 1]);
      StepKeeps(Run(ps[..|ps| - 1]), ps[|ps| - 1]);
    }
  }

  /** One iteration sends or keeps the row's song and nothing else, and counts the row when
      it completes. */
  lemma StepSongs(st: LoadState, p: Parsed)
    ensures Sent(Step(st, p).log).songs + Step(st, p).songs
      == Sent(st.log).songs + st.songs + (if p.song.Some? then [p.song.value] else [])
    ensures Step(st, p).total == st.total + (if Completes(p) then 1 else 0)
  {
    var a := Attempt(st, p);
    AppendAssoc(Sent(st.log).songs, st.songs, if p.song.Some? then [p.song.value] else []);
    if Completes(p) && |a.songs| >= BatchSize {
      FlushMoves(a);
      assert Sent(a.log).songs + a.songs + [] == Sent(a.log).songs + a.songs;
    }
  }

  /** Songs sent plus the song batch are the parsed songs so far, and the count is the
      number of completed rows. */
  lemma {:induction false} RunSongs(ps: seq<Parsed>)
    ensures Sent(Run(ps).log).songs + Run(ps).songs == ParsedSongs(ps)
    ensures Run(ps).total == CountCompleted(ps)
  {
    if |ps| > 0 {
      RunSongs(ps[..|ps| - 1]);
      StepSongs(Run(ps[..|ps| - 1]), ps[|ps| - 1]);
    }
  }

  /** A row that completes always leaves fewer than 1000 songs in the batch. */
  lemma CompletedRowLeavesRoom(st: LoadState, p: Parsed)
    requires Completes(p)
    ensures |Step(st, p).songs| < BatchSize
  {
  }

  /** A row that raises after its song was appended skips the flush check: the batch can
      reach 1000 songs and stay there until a later row completes. */
  lemma RaisingRowMayFillBatch(st: LoadState, p: Parsed)
    requires p.song.Some? && p.genres.None?
    requires |st.songs| == BatchSize - 1
    ensures |Step(st, p).songs| == BatchSize
    ensures Step(st, p).log == st.log
  {
  }

  /** The final flush keeps the invariant, leaves nothing pending and sends the song batch. */
  lemma FinishKeeps(st: LoadState)
    requires Invariant(st)
    ensures Invariant(Finish(st)) && Pending(Finish(st)) == NoBatches
    ensures Sent(Finish(st).log).songs == Sent(st.log).songs + st.songs && Finish(st).total == st.total
  {
    if st.songs != [] {
      FlushKeeps(st);
      FlushMoves(st);
    } else {
      assert Sent(st.log).songs + [] == Sent(st.log).songs;
    }
  }

  /** With nothing pending, the invariant speaks of the rows sent alone. */
  lemma NothingPending(st: LoadState, k: Kind)
    requires Invariant(st) && Pending(st) == NoBatches
    ensures Enumerates(NamesOfKind(Sent(st.log), k), TableOf(st, k).ids)
    ensures LinksValid(LinksOfKind(Sent(st.log), k), TableOf(st, k).ids)
  {
    var sent := Sent(st.log);
    assert NamesOfKind(sent, k) + [] == NamesOfKind(sent, k);
    assert LinksOfKind(sent, k) + [] == LinksOfKind(sent, k);
  }

  /** After the final flush every parsed song has been sent, once and in row order; the
      lookup rows sent of each kind enumerate its map, so every name is sent once with its
      own id; every link sent points at a sent name; nothing is left pending; and the count
      is the number of rows that completed. */
  lemma FinishSendsEverything(ps: seq<Parsed>)
    ensures Sent(Finish(Run(ps)).log).songs == ParsedSongs(ps)
    ensures forall k :: Enumerates(NamesOfKind(Sent(Finish(Run(ps)).log), k), TableOf(Finish(Run(ps)), k).ids)
    ensures forall k :: LinksValid(LinksOfKind(Sent(Finish(Run(ps)).log), k), TableOf(Finish(Run(ps)), k).ids)
    ensures Pending(Finish(Run(ps))) == NoBatches
    ensures Finish(Run(ps)).total == CountCompleted(ps)
  {
    RunInvariant(ps);
    RunSongs(ps);
    FinishKeeps(Run(ps));
    forall k ensures Enumerates(NamesOfKind(Sent(Finish(Run(ps)).log), k), TableOf(Finish(Run(ps)), k).ids)
      && LinksValid(LinksOfKind(Sent(Finish(Run(ps)).log), k), TableOf(Finish(Run(ps)), k).ids) {
      NothingPending(Finish(Run(ps)), k);
    }
  }

  /** The same for the rows csv.DictReader yields. */
  lemma LoadSendsEverything(rows: seq<CsvRow>)
    ensures Sent(Load(rows).log).songs == ParsedSongs(ParseRows(rows))
    ensures forall k :: Enumerates(NamesOfKind(Sent(Load(rows).log), k), TableOf(Load(rows), k).ids)
    ensures forall k :: LinksValid(LinksOfKind(Sent(Load(rows).log), k), TableOf(Load(rows), k).ids)
    ensures Pending(Load(rows)) == NoBatches
    ensures Load(rows).total == CountCompleted(ParseRows(rows))
  {
    FinishSendsEverything(ParseRows(rows));
  }

  /** The database cursor, reduced to the calls it has received. */
  class Cursor {
    var executed: seq<Insert>

    constructor ()
      ensures executed == []
    {
      executed := [];
    }

    /** `cursor.executemany(sql, rows)` */
    method ExecuteMany(ins: Insert)
      modifies this
      ensures executed == old(executed) + [ins]
    {
      executed := executed + [ins];
    }
  }

  /** `execute_batch_inserts` */
  method ExecuteBatchInserts(cursor: Cursor, songBatch: seq<SongTuple>, genreBatch: seq<(int, string)>,
                             arrangementBatch: seq<(int, string)>, regionBatch: seq<(int, string)>,
                             songGenreBatch: seq<(int, int)>, songArrangementBatch: seq<(int, int)>,
                             songRegionBatch: seq<(int, int)>)
    modifies cursor
    ensures cursor.executed == old(cursor.executed) + BatchStatements(Batches(songBatch, genreBatch, arrangementBatch,
      regionBatch, songGenreBatch, songArrangementBatch, songRegionBatch))
  {
    ghost var start := cursor.executed;
    if genreBatch != [] {
      cursor.ExecuteMany(InsertNames(Genre, genreBatch));
    }
    ghost var sent := Send(InsertNames(Genre, genreBatch));
    assert cursor.executed == start + sent;
    if arrangementBatch != [] {
      cursor.ExecuteMany(InsertNames(Arrangement, arrangementBatch));
    }
    AppendAssoc(start, sent, Send(InsertNames(Arrangement, arrangementBatch)));
    sent := sent + Send(InsertNames(Arrangement, arrangementBatch));
    assert cursor.executed == start + sent;
    if regionBatch != [] {
      cursor.ExecuteMany(InsertNames(Region, regionBatch));
    }
    AppendAssoc(start, sent, Send(InsertNames(Region, regionBatch)));
    sent := sent + Send(InsertNames(Region, regionBatch));
    assert cursor.executed == start + sent;
    if songBatch != [] {
      cursor.ExecuteMany(InsertSongs(songBatch));
    }
    AppendAssoc(start, sent, Send(InsertSongs(songBatch)));
    sent := sent + Send(InsertSongs(songBatch));
    assert cursor.executed == start + sent;
    if songGenreBatch != [] {
      cursor.ExecuteMany(InsertLinks(Genre, songGenreBatch));
    }
    AppendAssoc(start, sent, Send(InsertLinks(Genre, songGenreBatch)));
    sent := sent + Send(InsertLinks(Genre, songGenreBatch));
    assert cursor.executed == start + sent;
    if songArrangementBatch != [] {
      cursor.ExecuteMany(InsertLinks(Arrangement, songArrangementBatch));
    }
    AppendAssoc(start, sent, Send(InsertLinks(Arrangement, songArrangementBatch)));
    sent := sent + Send(InsertLinks(Arrangement, songArrangementBatch));
    assert cursor.executed == start + sent;
    if songRegionBatch != [] {
      cursor.ExecuteMany(InsertLinks(Region, songRegionBatch));
    }
    AppendAssoc(start, sent, Send(InsertLinks(Region, songRegionBatch)));
    sent := sent + Send(InsertLinks(Region, songRegionBatch));
    assert cursor.executed == start + sent;
  }

  /** The inner `for name in names` loop of one kind, over that kind's map, lookup batch and
      link batch. */
  method InternNames(t: Table, songId: int, names: seq<string>) returns (r: Table)
    ensures r == InternAll(t, songId, names)
  {
    var namesMap, nameBatch, linkBatch := t.ids, t.batch, t.links;
    var i := 0;
    while i < |names|
      invariant 0 <= i <= |names|
      invariant Table(namesMap, nameBatch, linkBatch) == InternAll(t, songId, names[..i])
    {
      var name := names[i];
      if name !in namesMap {
        namesMap := namesMap[name := |namesMap| + 1];
        nameBatch := nameBatch + [(namesMap[name], name)];
      }
      linkBatch := linkBatch + [(songId, namesMap[name])];
      assert names[..i + 1][..i] == names[..i];
      i := i + 1;
    }
    assert names[..i] == names;
    r := Table(namesMap, nameBatch, linkBatch);
  }

  /** The `try` body for one row, up to the flush check; `completed` is false when it raised,
      and then the lists keep what was appended before the raise. */
  method TryRow(songBatch: seq<SongTuple>, genres: Table, arrangements: Table, regions: Table,
                totalProcessed: nat, row: CsvRow, ghost log: seq<Insert>)
    returns (songBatch': seq<SongTuple>, genres': Table, arrangements': Table, regions': Table,
             totalProcessed': nat, completed: bool)
    ensures completed == Completes(ParseRow(row))
    ensures LoadState(songBatch', genres', arrangements', regions', totalProcessed', log)
      == Attempt(LoadState(songBatch, genres, arrangements, regions, totalProcessed, log), ParseRow(row))
  {
    songBatch', genres', arrangements', regions', totalProcessed' := songBatch, genres, arrangements, regions, totalProcessed;
    completed := false;
    var song := SongOf(row);
    if song.None? {
      return;
    }
    var songId := song.value.id;
    songBatch' := songBatch' + [song.value];
    var genreNames := NamesOf(row, "Genres");
    if genreNames.None? {
      return;
    }
    genres' := InternNames(genres', songId, genreNames.value);
    var arrangementNames := NamesOf(row, "Arrangements");
    if arrangementNames.None? {
      return;
    }
    arrangements' := InternNames(arrangements', songId, arrangementNames.value);
    var regionNames := NamesOf(row, "Available Regions");
    if regionNames.None? {
      return;
    }
    regions' := InternNames(regions', songId, regionNames.value);
    totalProcessed' := totalProcessed' + 1;
    completed := true;
  }

  /** `fast_bulk_insert_songs` over the rows csv.DictReader yields. */
  method FastBulkInsertSongs(cursor: Cursor, rows: seq<CsvRow>) returns (totalProcessed: nat)
    modifies cursor
    ensures cursor.executed == old(cursor.executed) + Load(rows).log
    ensures totalProcessed == Load(rows).total
  {
    var songBatch: seq<SongTuple> := [];
    var genres := Table(map[], [], []);
    var arrangements := Table(map[], [], []);
    var regions := Table(map[], [], []);
    totalProcessed := 0;
    ghost var start := cursor.executed;
    ghost var log: seq<Insert> := [];

    var i := 0;
    assert Run(ParseRows(rows[..0])) == Init;
    while i < |rows|
      invariant 0 <= i <= |rows|
      invariant cursor.executed == start + log
      invariant LoadState(songBatch, genres, arrangements, regions, totalProcessed, log) == Run(ParseRows(rows[..i]))
    {
      var row := rows[i];
      RunSnoc(rows, i);
      ghost var st := Run(ParseRows(rows[..i]));
      var completed;
      songBatch, genres, arrangements, regions, totalProcessed, completed :=
        TryRow(songBatch, genres, arrangements, regions, totalProcessed, row, log);
      ghost var attempted := Attempt(st, ParseRow(row));
      assert LoadState(songBatch, genres, arrangements, regions, totalProcessed, log) == attempted;
      if completed && |songBatch| >= BatchSize {
        var pending := Batches(songBatch, genres.batch, arrangements.batch, regions.batch,
          genres.links, arrangements.links, regions.links);
        assert pending == Pending(attempted);
        ExecuteBatchInserts(cursor, songBatch, genres.batch, arrangements.batch, regions.batch,
          genres.links, arrangements.links, regions.links);
        AppendAssoc(start, log, BatchStatements(pending));
        log := log + BatchStatements(pending);
        songBatch := [];
        genres, arrangements, regions := Table(genres.ids, [], []), Table(arrangements.ids, [], []), Table(regions.ids, [], []);
        assert LoadState(songBatch, genres, arrangements, regions, totalProcessed, log) == Flush(attempted);
      }
      i := i + 1;
    }
    assert rows[..i] == rows;
    if songBatch != [] {
      var pending := Batches(songBatch, genres.batch, arrangements.batch, regions.batch,
        genres.links, arrangements.links, regions.links);
      ExecuteBatchInserts(cursor, songBatch, genres.batch, arrangements.batch, regions.batch,
        genres.links, arrangements.links, regions.links);
      AppendAssoc(start, log, BatchStatements(pending));
      log := log + BatchStatements(pending);
    }
  }
}
