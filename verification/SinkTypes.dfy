/** Rows and single-table transactions as the sinks see them. */
module SinkTypes {
  datatype Option<+T> = None | Some(value: T)

  type Byte = b: nat | b < 256
  type Bytes = seq<Byte>

  // A column value is held as the text it is written out as.
  type Value = Bytes

  datatype Column = Column(name: string, value: Option<Value>, generated: bool, handleKey: bool)

  // A column that is not present in the event is None.
  type Columns = seq<Option<Column>>

  const MIN_INT64: int := -0x8000_0000_0000_0000
  const MAX_INT64: int := 0x7FFF_FFFF_FFFF_FFFF

  type Int64 = x: int | MIN_INT64 <= x <= MAX_INT64

  /** `indexes` lists, for each unique index, the offsets of its columns. */
  datatype Row = Row(tableID: Int64, quotedTable: string, columns: Columns, preColumns: Columns, indexes: seq<seq<nat>>)

  /** Offsets stay inside the column lists that are present, and index numbers fit 64 bits. */
  predicate WellFormedRow(r: Row) {
    && |r.indexes| <= MAX_INT64
    && forall i, k :: 0 <= i < |r.indexes| && 0 <= k < |r.indexes[i]| ==>
         && (r.columns != [] ==> r.indexes[i][k] < |r.columns|)
         && (r.preColumns != [] ==> r.indexes[i][k] < |r.preColumns|)
  }

  datatype Txn = Txn(commitTs: nat, replicaID: nat, rows: seq<Row>)

  predicate WellFormedTxn(t: Txn) {
    forall i :: 0 <= i < |t.rows| ==> WellFormedRow(t.rows[i])
  }
}
