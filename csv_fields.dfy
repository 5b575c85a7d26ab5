/**
 * How the bulk loader reads one CSV row: Python's int() on a decimal field,
 * the pipe-separated name lists, and the song tuple with its truncated and
 * defaulted fields. A row is the dict csv.DictReader yields.
 */
module CsvFields {
  import opened Text

  /** A csv.DictReader row: a key that is absent raises KeyError; a None value is a
      field missing from a short line. */
  type CsvRow = map<string, Option<string>>

  const NameWidth: nat := 255
  const CoverWidth: nat := 512

  /** The `songs` tuple in column order. */
  datatype SongTuple = SongTuple(
    id: int,
    artist: string,
    title: string,
    available: bool,
    album: string,
    albumCover: string,
    duration: Option<string>,
    dlc: string,
    regionsAvailable: int,
    regionsUnavailable: int)

  /** int(s) on a str: surrounding whitespace, an optional sign, then one or more ASCII digits;
      anything else raises ValueError (None). */
  function ParseInt(s: string): (r: Option<int>)
    ensures r.Some? ==> Strip(s) != []
  {
    var t := Strip(s);
    if |t| == 0 then None
    else
      var negative := t[0] == '-';
      var digits := if t[0] == '-' || t[0] == '+' then t[1..] else t;
      if |digits| == 0 || !AllDigits(digits) then None
      else if negative then Some(0 - DigitsValue(digits))
      else Some(DigitsValue(digits))
  }

  /** A string whose ends are not whitespace strips to itself. */
  lemma StripUnchanged(s: string)
    requires |s| > 0 && !IsSpace(s[0]) && !IsSpace(s[|s| - 1])
    ensures Strip(s) == s
  {
    var r := Strip(s);
    var i, j :| 0 <= i <= j <= |s| && r == s[i..j] && AllSpace(s[..i]) && AllSpace(s[j..]);
    SpacePrefixEmpty(s, i);
    SpaceSuffixEmpty(s, j);
  }

  /** Proof aid: an all-space prefix of a string that starts with a non-space is empty. */
  lemma SpacePrefixEmpty(s: string, i: nat)
    requires 0 < |s| && i <= |s| && !IsSpace(s[0])
    ensures AllSpace(s[..i]) ==> i == 0
  {
    if i > 0 {
      assert s[..i][0] == s[0];
    }
  }

  /** Proof aid: an all-space suffix of a string that ends with a non-space is empty. */
  lemma SpaceSuffixEmpty(s: string, j: nat)
    requires j <= |s| && 0 < |s| && !IsSpace(s[|s| - 1])
    ensures AllSpace(s[j..]) ==> j == |s|
  {
    if j < |s| {
      assert s[j..][|s| - j - 1] == s[|s| - 1];
    }
  }

  /** int(str(n)) == n. */
  lemma ParseShow(n: int)
    ensures ParseInt(Show(n)) == Some(n)
  {
    var s := Show(n);
    var d := if n < 0 then Digits(-n) else Digits(n);
    assert IsDigit(d[0]) && IsDigit(d[|d| - 1]);
    assert s[|s| - 1] == d[|d| - 1];
    StripUnchanged(s);
    if n < 0 {
      assert s[1..] == d;
    }
  }

  /** Every string that strips to an optional sign and one or more digits parses, to the
      value of the digits, negated after a '-'. */
  lemma ParseIntAccepts(s: string, sign: string, digits: string)
    requires Strip(s) == sign + digits
    requires sign == "" || sign == "+" || sign == "-"
    requires digits != [] && AllDigits(digits)
    ensures ParseInt(s) == Some(if sign == "-" then 0 - DigitsValue(digits) else DigitsValue(digits))
  {
    var t := Strip(s);
    if sign == "" {
      assert t == digits && IsDigit(t[0]);
    } else {
      assert t[0] == sign[0] && t[1..] == digits;
    }
  }

  /** Nothing but whitespace, signs and digits parses. */
  lemma ParseIntCharacters(s: string)
    requires ParseInt(s).Some?
    ensures var t := Strip(s); forall i :: 0 <= i < |t| ==> IsDigit(t[i]) || (i == 0 && t[i] in "+-")
  {
    var t := Strip(s);
    var digits := if t[0] == '-' || t[0] == '+' then t[1..] else t;
    forall i | 0 <= i < |t| ensures IsDigit(t[i]) || (i == 0 && t[i] in "+-") {
      if t[0] == '-' || t[0] == '+' {
        if i > 0 { assert t[i] == digits[i - 1]; }
      }
    }
  }

  /** A token is already stripped, non-empty and free of '|'. */
  predicate IsToken(t: string) {
    t != [] && '|' !in t && !IsSpace(t[0]) && !IsSpace(t[|t| - 1])
  }

  /** `[x.strip() for x in field.split('|') if x.strip()]` */
  function Tokens(field: string): (ts: seq<string>)
    ensures forall k :: 0 <= k < |ts| ==> IsToken(ts[k])
  {
    KeepStripped(Split(field, '|'))
  }

  /** The stripped pieces that are not empty, in order. */
  function KeepStripped(parts: seq<string>): (ts: seq<string>)
    ensures (forall p :: p in parts ==> '|' !in p) ==> forall k :: 0 <= k < |ts| ==> IsToken(ts[k])
  {
    if |parts| == 0 then []
    else
      var rest := KeepStripped(parts[1..]);
      var t := Strip(parts[0]);
      PipeFreeParts(parts);
      StrippedToken(parts[0]);
      if t != [] then [t] + rest else rest
  }

  /** Proof aid: a list of '|'-free parts has a '|'-free head and tail. */
  lemma PipeFreeParts(parts: seq<string>)
    requires |parts| > 0
    ensures (forall p :: p in parts ==> '|' !in p) ==>
      '|' !in parts[0] && forall p :: p in parts[1..] ==> '|' !in p
  {
    assert parts[0] in parts;
    assert forall p :: p in parts[1..] ==> p in parts;
  }

  /** Proof aid: stripping a '|'-free part leaves a token or nothing. */
  lemma StrippedToken(part: string)
    ensures '|' !in part && Strip(part) != [] ==> IsToken(Strip(part))
  {
  }

  lemma {:induction false} KeepStrippedTokens(ts: seq<string>)
    requires forall k :: 0 <= k < |ts| ==> IsToken(ts[k])
    ensures KeepStripped(ts) == ts
  {
    if |ts| > 0 {
      StripUnchanged(ts[0]);
      KeepStrippedTokens(ts[1..]);
    }
  }

  /** Joining tokens with '|' and splitting the field again gives the same tokens back. */
  lemma TokensJoin(ts: seq<string>)
    requires forall k :: 0 <= k < |ts| ==> IsToken(ts[k])
    ensures Tokens(Join(ts, "|")) == ts
  {
    if |ts| == 0 {
      assert Split([], '|') == [[]];
    } else {
      assert forall p :: p in ts ==> '|' !in p;
      SplitJoin(ts, '|');
      KeepStrippedTokens(ts);
    }
  }

  /** row[key]: None when the key is absent (KeyError). */
  function Cell(row: CsvRow, key: string): Option<Option<string>> {
    if key in row then Some(row[key]) else None
  }

  /** `row[key][:width] if row[key] else ''` */
  function Clipped(row: CsvRow, key: string, width: nat): (r: Option<string>)
    ensures r.Some? <==> key in row
    ensures r.Some? ==> |r.value| <= width
    ensures r.Some? && row[key].Some? ==>
      r.value <= row[key].value && |r.value| == if |row[key].value| <= width then |row[key].value| else width
    ensures r.Some? && row[key].None? ==> r.value == []
  {
    match Cell(row, key)
    case None => None
    case Some(None) => Some([])
    case Some(Some(s)) => Some(Take(s, width))
  }

  /** `row['Duration'] if row['Duration'] else None` */
  function Duration(row: CsvRow): (r: Option<Option<string>>)
    ensures r.Some? <==> "Duration" in row
    ensures r.Some? ==> (r.value.Some? <==> row["Duration"].Some? && row["Duration"].value != [])
    ensures r.Some? && r.value.Some? ==> r.value == row["Duration"]
  {
    match Cell(row, "Duration")
    case None => None
    case Some(None) => Some(None)
    case Some(Some(s)) => if s == [] then Some(None) else Some(Some(s))
  }

  /** `row['Available'].lower() == 'true'`; a missing field raises (None). */
  function Available(row: CsvRow): (r: Option<bool>)
    ensures r.Some? <==> "Available" in row && row["Available"].Some?
    ensures r == Some(true) ==> |row["Available"].value| == 4
    ensures r.Some? ==> (r.value <==> Lower(row["Available"].value) == "true")
  {
    match Cell(row, "Available")
    case Some(Some(s)) => Some(Lower(s) == "true")
    case _ => None
  }

  /** `int(row[key]) if row[key].strip() else 0` */
  function Count(row: CsvRow, key: string): (r: Option<int>)
    ensures key in row && row[key].Some? && AllSpace(row[key].value) ==> r == Some(0)
    ensures r.Some? ==> key in row && row[key].Some?
    ensures key in row && row[key].Some? && !AllSpace(row[key].value) ==> r == ParseInt(row[key].value)
  {
    match Cell(row, key)
    case Some(Some(s)) => if Strip(s) == [] then Some(0) else ParseInt(s)
    case _ => None
  }

  /** `int(row['ID'])`: an empty or missing field raises. */
  function SongId(row: CsvRow): (r: Option<int>)
    ensures r.Some? ==> "ID" in row && row["ID"].Some? && r == ParseInt(row["ID"].value)
  {
    match Cell(row, "ID")
    case Some(Some(s)) => ParseInt(s)
    case _ => None
  }

  /** The tuple appended to `song_batch` (source lines 121-135), or None when building it raises. */
  function SongOf(row: CsvRow): (r: Option<SongTuple>)
    ensures r.Some? <==>
      && SongId(row).Some?
      && "Artist" in row && "Title" in row && "Album" in row && "Album Cover" in row && "Duration" in row && "DLC" in row
      && Available(row).Some?
      && Count(row, "Regions Available Count").Some? && Count(row, "Regions Unavailable Count").Some?
    ensures r.Some? ==>
      && r.value.id == SongId(row).value
      && r.value.artist == Clipped(row, "Artist", NameWidth).value
      && r.value.title == Clipped(row, "Title", NameWidth).value
      && r.value.album == Clipped(row, "Album", NameWidth).value
      && r.value.albumCover == Clipped(row, "Album Cover", CoverWidth).value
      && r.value.duration == Duration(row).value
      && r.value.dlc == Clipped(row, "DLC", NameWidth).value
      && r.value.available == Available(row).value
      && r.value.regionsAvailable == Count(row, "Regions Available Count").value
      && r.value.regionsUnavailable == Count(row, "Regions Unavailable Count").value
  {
    var id := SongId(row);
    var artist := Clipped(row, "Artist", NameWidth);
    var title := Clipped(row, "Title", NameWidth);
    var available := Available(row);
    var album := Clipped(row, "Album", NameWidth);
    var cover := Clipped(row, "Album Cover", CoverWidth);
    var duration := Duration(row);
    var dlc := Clipped(row, "DLC", NameWidth);
    var regionsAvailable := Count(row, "Regions Available Count");
    var regionsUnavailable := Count(row, "Regions Unavailable Count");
    if id.Some? && artist.Some? && title.Some? && available.Some? && album.Some? && cover.Some?
       && duration.Some? && dlc.Some? && regionsAvailable.Some? && regionsUnavailable.Some?
    then
      Some(SongTuple(id.value, artist.value, title.value, available.value, album.value, cover.value,
        duration.value, dlc.value, regionsAvailable.value, regionsUnavailable.value))
    else None
  }

  /** The song tuple's text fields fit their columns: 255 characters, 512 for the cover. */
  lemma SongOfWidths(row: CsvRow)
    requires SongOf(row).Some?
    ensures var song := SongOf(row).value;
      && |song.artist| <= NameWidth && |song.title| <= NameWidth && |song.album| <= NameWidth
      && |song.dlc| <= NameWidth && |song.albumCover| <= CoverWidth
  {
  }

  /** The names of a pipe-separated column, or None when the column is missing (KeyError)
      or the field is missing from a short line (the `split` raises). */
  function NamesOf(row: CsvRow, key: string): (r: Option<seq<string>>)
    ensures r.Some? <==> key in row && row[key].Some?
    ensures r.Some? ==> r.value == Tokens(row[key].value)
  {
    match Cell(row, key)
    case Some(Some(s)) => Some(Tokens(s))
    case _ => None
  }
}
