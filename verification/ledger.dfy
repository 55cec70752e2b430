/** The prediction ledger (the `predictions` table of app.py) as an
    in-memory sequence of records in insertion order. Each operation opens
    its own connection, which may fail; the rows persist either way. */
module Ledger {
  import opened Wrappers
  import opened Features

  /** N, P, K, temperature, humidity, ph and rainfall, in that order: the
      seven REAL columns of a row. */
  type FeatureValues = v: seq<real> | |v| == FEATURE_COUNT witness [0.0, 0.0, 0.0, 0.0, 0.0, 0.0, 0.0]

  /** One row of the `predictions` table. */
  datatype Record = Record(id: int, timestamp: string, values: FeatureValues, crop: string)

  /** The outcome of `sqlite3.connect` and the statement run on it for one
      operation: success, or the message of the exception raised. */
  datatype Connection = Connected | Unreachable(reason: string)

  /** The export's column header. */
  const COLUMNS: seq<string> :=
    ["id", "timestamp", "N", "P", "K", "temperature", "humidity", "ph", "rainfall", "recommended_crop"]

  /** The query limit of `recent`. */
  const RECENT_LIMIT: nat := 100

  /** Ids are positive and grow strictly with insertion order. */
  ghost predicate IdsIncreasing(rows: seq<Record>) {
    && (forall i :: 0 <= i < |rows| ==> rows[i].id > 0)
    && (forall i, j :: 0 <= i < j < |rows| ==> rows[i].id < rows[j].id)
  }

  /** The id `AUTOINCREMENT` gives the next row: one past the last. */
  function NextId(rows: seq<Record>): (id: int)
    ensures IdsIncreasing(rows) ==> id > 0 && forall i :: 0 <= i < |rows| ==> rows[i].id < id
  {
    if |rows| == 0 then 1 else rows[|rows| - 1].id + 1
  }

  /** `log_prediction`: insert one row; any failure (`fault`, or a
      connection that cannot be made) is swallowed and leaves the table as
      it was. */
  function Append(rows: seq<Record>, conn: Connection, values: FeatureValues, crop: string,
                  now: string, fault: bool): (r: seq<Record>)
    ensures conn.Unreachable? || fault ==> r == rows
    ensures conn.Connected? && !fault ==> r == rows + [Record(NextId(rows), now, values, crop)]
  {
    if conn.Connected? && !fault then rows + [Record(NextId(rows), now, values, crop)]
    else rows
  }

  /** Appending keeps ids strictly increasing and never changes earlier rows. */
  lemma AppendKeepsIdsIncreasing(rows: seq<Record>, conn: Connection, values: FeatureValues,
                                 crop: string, now: string, fault: bool)
    requires IdsIncreasing(rows)
    ensures IdsIncreasing(Append(rows, conn, values, crop, now, fault))
    ensures rows <= Append(rows, conn, values, crop, now, fault)
  {
  }

  /** `seq` reversed: newest first. */
  function Reverse<T>(s: seq<T>): (r: seq<T>)
    ensures |r| == |s|
    ensures forall i :: 0 <= i < |s| ==> r[i] == s[|s| - 1 - i]
  {
    if |s| == 0 then [] else Reverse(s[1..]) + [s[0]]
  }

  function Min(a: int, b: int): int { if a <= b then a else b }

  /** `recent`: `ORDER BY id DESC LIMIT 100`, the newest records first, or
      the connection's error. */
  function Recent(rows: seq<Record>, conn: Connection): (r: Result<seq<Record>, string>)
    ensures conn.Unreachable? <==> r.Err?
    ensures conn.Unreachable? ==> r == Err(conn.reason)
    ensures conn.Connected? ==> |r.value| == Min(RECENT_LIMIT, |rows|)
    ensures conn.Connected? ==>
      forall i :: 0 <= i < |r.value| ==> r.value[i] == rows[|rows| - 1 - i]
  {
    match conn
    case Unreachable(reason) => Err(reason)
    case Connected => Ok(Reverse(rows)[..Min(RECENT_LIMIT, |rows|)])
  }

  /** What `ORDER BY id DESC` promises: ids fall strictly along the result. */
  lemma RecentIdsDecreasing(rows: seq<Record>)
    requires IdsIncreasing(rows)
    ensures var r := Recent(rows, Connected).value;
      forall i, j :: 0 <= i < j < |r| ==> r[i].id > r[j].id
  {
  }

  /** After a successful append the new record heads `recent`, followed by
      what `recent` showed before, cut to the limit. */
  lemma RecentAfterAppend(rows: seq<Record>, values: FeatureValues, crop: string, now: string)
    ensures var after := Recent(Append(rows, Connected, values, crop, now, false), Connected).value;
      && after[0] == Record(NextId(rows), now, values, crop)
      && after[1..] == Recent(rows, Connected).value[..Min(RECENT_LIMIT - 1, |rows|)]
  {
    var rec := Record(NextId(rows), now, values, crop);
    var after := Recent(Append(rows, Connected, values, crop, now, false), Connected).value;
    var before := Recent(rows, Connected).value;
    assert |after[1..]| == Min(RECENT_LIMIT - 1, |rows|);
    forall i | 0 <= i < |after[1..]|
      ensures after[1..][i] == before[i]
    {
      assert after[i + 1] == (rows + [rec])[|rows| - 1 - i];
    }
  }

  /** With at most the limit of records, `recent` gives all of them,
      newest first. */
  lemma RecentReturnsAppendedRecords(rows: seq<Record>)
    requires |rows| <= RECENT_LIMIT
    ensures Recent(rows, Connected) == Ok(Reverse(rows))
  {
    assert Min(RECENT_LIMIT, |rows|) == |rows|;
    assert Reverse(rows)[..|rows|] == Reverse(rows);
  }

  /** One cell of the CSV export, before text rendering. */
  datatype Cell = IntCell(i: int) | TextCell(text: string) | RealCell(r: real)

  /** The row `csv.writerows` writes for a record. */
  function RowOf(r: Record): seq<Cell>
  {
    [IntCell(r.id), TextCell(r.timestamp)]
    + seq(FEATURE_COUNT, k requires 0 <= k < FEATURE_COUNT => RealCell(r.values[k]))
    + [TextCell(r.crop)]
  }

  /** Reading a data row back: the inverse of `RowOf`. */
  function ParseRow(row: seq<Cell>): Option<Record>
  {
    if |row| == 10 && row[0].IntCell? && row[1].TextCell? && row[9].TextCell?
       && forall k :: 2 <= k < 9 ==> row[k].RealCell?
    then Some(Record(row[0].i, row[1].text, seq(FEATURE_COUNT, k requires 0 <= k < FEATURE_COUNT => row[k + 2].r), row[9].text))
    else None
  }

  lemma ParseRowOf(r: Record)
    ensures |RowOf(r)| == |COLUMNS|
    ensures ParseRow(RowOf(r)) == Some(r)
  {
    var row := RowOf(r);
    assert forall k :: 0 <= k < FEATURE_COUNT ==> row[k + 2] == RealCell(r.values[k]);
    var values := seq(FEATURE_COUNT, k requires 0 <= k < FEATURE_COUNT => row[k + 2].r);
    assert values == r.values;
  }

  /** A row of text cells. */
  function TextCells(texts: seq<string>): (r: seq<Cell>)
    ensures |r| == |texts|
    ensures forall i :: 0 <= i < |texts| ==> r[i] == TextCell(texts[i])
  {
    if |texts| == 0 then [] else [TextCell(texts[0])] + TextCells(texts[1..])
  }

  /** The header row of the export: one text cell per column name. */
  const HEADER: seq<Cell> := TextCells(COLUMNS)

  /** The data rows of a list of records, in the same order. */
  function RowsOf(records: seq<Record>): (r: seq<seq<Cell>>)
    ensures |r| == |records|
    ensures forall i :: 0 <= i < |records| ==> r[i] == RowOf(records[i])
  {
    if |records| == 0 then [] else [RowOf(records[0])] + RowsOf(records[1..])
  }

  /** `download_predictions`: the header row, then every record newest
      first, or the connection's error. */
  function Export(rows: seq<Record>, conn: Connection): (r: Result<seq<seq<Cell>>, string>)
    ensures conn.Unreachable? ==> r == Err(conn.reason)
    ensures conn.Connected? ==> r.Ok? && |r.value| == |rows| + 1 && r.value[0] == HEADER
  {
    match conn
    case Unreachable(reason) => Err(reason)
    case Connected =>
      Ok([HEADER] + RowsOf(Reverse(rows)))
  }

  /** Export round trip: data row i+1 reads back as the i-th newest record,
      so every record `recent` shows appears in the export unchanged. */
  lemma ExportRoundTrip(rows: seq<Record>, i: int)
    requires 0 <= i < |rows|
    ensures ParseRow(Export(rows, Connected).value[i + 1]) == Some(rows[|rows| - 1 - i])
    ensures i < RECENT_LIMIT ==> ParseRow(Export(rows, Connected).value[i + 1]) == Some(Recent(rows, Connected).value[i])
  {
    ParseRowOf(rows[|rows| - 1 - i]);
  }
}
