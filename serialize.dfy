/**
 * The values a result row can hold as the database driver returns them, and
 * `json_serializable`, which both search endpoints apply to every field of
 * every row before encoding the response.
 */
module Serialize {

  /** A column value. DATETIME and TIME columns arrive as Python datetime and
      timedelta objects; each carries the text `str()` renders it as. Floats
      are opaque: only their rendering is kept. */
  datatype SqlValue =
    | SqlNull
    | SqlInt(i: int)
    | SqlBool(b: bool)
    | SqlFloat(rendered: string)
    | SqlText(s: string)
    | SqlDateTime(dateText: string)
    | SqlTimeDelta(deltaText: string)

  /** A fetched row: column names with their values, in column order. */
  type Record = seq<(string, SqlValue)>

  predicate IsTemporal(v: SqlValue) {
    v.SqlDateTime? || v.SqlTimeDelta?
  }

  /** `json_serializable`: temporal values become their string form, everything else passes through. */
  function JsonSerializable(v: SqlValue): (r: SqlValue)
    ensures !IsTemporal(r)
    ensures !IsTemporal(v) ==> r == v
    ensures v.SqlDateTime? ==> r == SqlText(v.dateText)
    ensures v.SqlTimeDelta? ==> r == SqlText(v.deltaText)
  {
    match v
    case SqlDateTime(t) => SqlText(t)
    case SqlTimeDelta(t) => SqlText(t)
    case _ => v
  }

  predicate RecordReady(rec: Record) {
    forall k :: 0 <= k < |rec| ==> !IsTemporal(rec[k].1)
  }

  /** `{k: json_serializable(v) for k, v in song.items()}` */
  function SerializeRecord(rec: Record): (r: Record)
    ensures |r| == |rec| && RecordReady(r)
    ensures forall k :: 0 <= k < |rec| ==> r[k] == (rec[k].0, JsonSerializable(rec[k].1))
  {
    seq(|rec|, k requires 0 <= k < |rec| => (rec[k].0, JsonSerializable(rec[k].1)))
  }

  /** The list comprehension over all fetched rows. */
  function SerializeRows(rows: seq<Record>): (r: seq<Record>)
    ensures |r| == |rows|
    ensures forall k :: 0 <= k < |rows| ==> r[k] == SerializeRecord(rows[k])
  {
    seq(|rows|, k requires 0 <= k < |rows| => SerializeRecord(rows[k]))
  }

  /** A row with no temporal value is serialised unchanged. */
  lemma SerializeReadyRecord(rec: Record)
    requires RecordReady(rec)
    ensures SerializeRecord(rec) == rec
  {
    forall k | 0 <= k < |rec| ensures SerializeRecord(rec)[k] == rec[k] {
      assert !IsTemporal(rec[k].1);
    }
  }

  /** Serialising twice is serialising once. */
  lemma SerializeIdempotent(rows: seq<Record>)
    ensures SerializeRows(SerializeRows(rows)) == SerializeRows(rows)
  {
    forall k | 0 <= k < |rows| ensures SerializeRows(SerializeRows(rows))[k] == SerializeRows(rows)[k] {
      SerializeReadyRecord(SerializeRecord(rows[k]));
    }
  }
}
