/**
 * Alignment of one encoded record with the model's feature schema.
 *
 * The dashboard builds a one-row table from the encoded record and reindexes
 * its columns against the ordered feature list the model was trained on,
 * filling every column the record lacks with 0. Only that observable
 * behaviour is modelled: the result row has one cell per schema entry, in
 * schema order, and record keys outside the schema are dropped.
 */
module Alignment {

  /** One cell of the aligned row: a column label and its numeric value. */
  datatype Cell = Cell(column: string, value: real)

  /** The value reindexing puts under `column`: the record's, or the fill value 0. */
  function FillValue(record: map<string, real>, column: string): real
  {
    if column in record then record[column] else 0.0
  }

  /** The labels of a row, left to right. */
  function Columns(row: seq<Cell>): (names: seq<string>)
    ensures |names| == |row|
    ensures forall i :: 0 <= i < |row| ==> names[i] == row[i].column
  {
    if row == [] then [] else [row[0].column] + Columns(row[1..])
  }

  /**
   * Reindex a one-row record against `schema` with fill value 0.
   * Cell i is labelled schema[i]; it carries the record's value when the
   * record has that key and 0 otherwise.
   */
  function Reindex(schema: seq<string>, record: map<string, real>): (row: seq<Cell>)
    ensures |row| == |schema|
    ensures forall i :: 0 <= i < |schema| ==> row[i].column == schema[i]
    ensures forall i :: 0 <= i < |schema| && schema[i] in record ==> row[i].value == record[schema[i]]
    ensures forall i :: 0 <= i < |schema| && schema[i] !in record ==> row[i].value == 0.0
  {
    if schema == [] then []
    else [Cell(schema[0], FillValue(record, schema[0]))] + Reindex(schema[1..], record)
  }

  /** The aligned row has exactly the schema's columns, in the schema's order. */
  lemma ReindexColumnsAreSchema(schema: seq<string>, record: map<string, real>)
    ensures Columns(Reindex(schema, record)) == schema
  {
    var names := Columns(Reindex(schema, record));
    assert |names| == |schema|;
    assert forall i :: 0 <= i < |schema| ==> names[i] == schema[i];
  }

  /** A name the schema does not list, such as an extra record key, labels no cell of the aligned row. */
  lemma ReindexDropsUnknownKeys(schema: seq<string>, record: map<string, real>, key: string)
    requires key !in schema
    ensures forall c :: c in Reindex(schema, record) ==> c.column != key
  {
  }

  /**
   * The aligned row depends only on the record's entries under schema
   * columns: dropping every other key first changes nothing.
   */
  lemma ReindexIgnoresKeysOutsideSchema(schema: seq<string>, record: map<string, real>)
    ensures Reindex(schema, record) == Reindex(schema, map k | k in record && k in schema :: record[k])
  {
  }

  /** Reindexing against a concatenated schema aligns each part independently. */
  lemma {:induction false} ReindexAppend(front: seq<string>, back: seq<string>, record: map<string, real>)
    ensures Reindex(front + back, record) == Reindex(front, record) + Reindex(back, record)
  {
    if front != [] {
      assert (front + back)[1..] == front[1..] + back;
      ReindexAppend(front[1..], back, record);
    }
  }
}
