/** Helpers over a TinyDB table of pydantic records: a record's `id` is the
    table's document id, never stored in the document itself. The table
    keeps its documents in id order and hands out ids above every id it
    has used. Documents are flat maps from field names to JSON text;
    `model_dump`/`model_validate` are the identity on them. */
module Db {
  import opened Wrappers

  /** A document's fields, without the `id`. */
  type Fields = map<string, string>

  /** A pydantic record: its optional `id` and its other fields. */
  datatype Record = Record(id: Option<nat>, fields: Fields)

  datatype Row = Row(id: nat, fields: Fields)

  /** The fields stored under `id`, if any. */
  function Find(rows: seq<Row>, id: nat): (r: Option<Fields>)
    ensures r.Some? <==> exists i :: 0 <= i < |rows| && rows[i].id == id
    ensures r.Some? ==> exists i :: 0 <= i < |rows| && rows[i] == Row(id, r.value)
  {
    if rows == [] then None
    else if rows[0].id == id then Some(rows[0].fields)
    else
      var r := Find(rows[1..], id);
      assert forall i :: 1 <= i < |rows| ==> rows[i] == rows[1..][i - 1];
      r
  }

  predicate Increasing(rows: seq<Row>)
  {
    forall i, j :: 0 <= i < j < |rows| ==> rows[i].id < rows[j].id
  }

  /** In an id-ordered table, the row found is the one at its position. */
  lemma FindAt(rows: seq<Row>, k: nat)
    requires Increasing(rows) && k < |rows|
    ensures Find(rows, rows[k].id) == Some(rows[k].fields)
  {
    var i :| 0 <= i < |rows| && rows[i] == Row(rows[k].id, Find(rows, rows[k].id).value);
    assert i == k;
  }

  /** Every row but the one with `id`, in order. */
  function Without(rows: seq<Row>, id: nat): (r: seq<Row>)
    ensures |r| <= |rows|
    ensures forall x :: x in r <==> x in rows && x.id != id
  {
    if rows == [] then []
    else (if rows[0].id == id then [] else [rows[0]]) + Without(rows[1..], id)
  }

  lemma {:induction false} WithoutIncreasing(rows: seq<Row>, id: nat)
    requires Increasing(rows)
    ensures Increasing(Without(rows, id))
    decreases |rows|
  {
    if rows != [] {
      WithoutIncreasing(rows[1..], id);
      var rest := Without(rows[1..], id);
      forall x | x in rest ensures rows[0].id < x.id {
        var j :| 0 <= j < |rows[1..]| && rows[1..][j] == x;
        assert rows[j + 1] == x;
      }
    }
  }

  /** Removing an id that is present removes exactly one row. */
  lemma {:induction false} WithoutPresent(rows: seq<Row>, id: nat)
    requires Increasing(rows)
    ensures Find(rows, id).Some? ==> |Without(rows, id)| == |rows| - 1
    ensures Find(rows, id).None? ==> Without(rows, id) == rows
    decreases |rows|
  {
    if rows != [] {
      WithoutPresent(rows[1..], id);
      if rows[0].id == id {
        assert forall i :: 0 <= i < |rows[1..]| ==> rows[1..][i].id != id by {
          forall i | 0 <= i < |rows[1..]| ensures rows[1..][i].id != id {
            assert rows[i + 1].id > rows[0].id;
          }
        }
        assert Find(rows[1..], id).None?;
      }
    }
  }

  /** The fields after `table.update(fields, doc_ids=[id])`: TinyDB merges
      the new fields into the stored ones. */
  function UpdatedRows(rows: seq<Row>, id: nat, fields: Fields): (r: seq<Row>)
    ensures |r| == |rows|
    ensures forall i :: 0 <= i < |rows| ==> r[i].id == rows[i].id
    ensures forall i :: 0 <= i < |rows| ==> r[i].fields == if rows[i].id == id then rows[i].fields + fields else rows[i].fields
  {
    seq(|rows|, i requires 0 <= i < |rows| => if rows[i].id == id then Row(id, rows[i].fields + fields) else rows[i])
  }

  /** A TinyDB table. */
  class Table {
    var rows: seq<Row>
    var lastId: nat

    ghost predicate Valid()
      reads this
    {
      Increasing(rows) && forall i :: 0 <= i < |rows| ==> rows[i].id <= lastId
    }

    constructor()
      ensures rows == [] && lastId == 0 && Valid()
    {
      rows := [];
      lastId := 0;
    }

    /** `insert(table, data)`: stores the fields under a new id and returns
        the record carrying that id. */
    method Insert(data: Record) returns (r: Record)
      requires Valid()
      modifies this
      ensures Valid()
      ensures r == Record(Some(lastId), data.fields)
      ensures Find(old(rows), lastId).None?
      ensures rows == old(rows) + [Row(lastId, data.fields)]
    {
      var id := lastId + 1;
      assert forall i :: 0 <= i < |rows| ==> rows[i].id != id;
      rows := rows + [Row(id, data.fields)];
      lastId := id;
      r := data.(id := Some(id));
    }

    /** `update(table, data, doc_id)`: the id is `doc_id`, else the
        record's own; with neither, or when the document is missing (or
        empty, which Python finds falsy), it raises and changes nothing;
        otherwise the fields are merged into that document and the record
        is returned unchanged. */
    method Update(data: Record, docId: Option<nat>) returns (result: Outcome<Record>)
      requires Valid()
      modifies this
      ensures Valid()
      ensures var id := if docId.Some? then docId else data.id;
        if id.None? then result.Raised? && rows == old(rows)
        else if Find(old(rows), id.value).None? || Find(old(rows), id.value) == Some(map[]) then
          result.Raised? && rows == old(rows)
        else result == Returned(data) && rows == UpdatedRows(old(rows), id.value, data.fields)
      ensures lastId == old(lastId)
    {
      var id := docId;
      if id.None? {
        id := data.id;
        if id.None? {
          return Raised("Row doesn't contain an id field");
        }
      }
      var row := Find(rows, id.value);
      if row.None? || row.value == map[] {
        return Raised("Table doesn't contain the document");
      }
      rows := UpdatedRows(rows, id.value, data.fields);
      result := Returned(data);
    }

    /** `select_one(table, cls, doc_id)`. Without an id: nothing for an
        empty table, an error for more than one row, else the single row.
        With an id: nothing when the document is missing or empty, else
        that document. The record carries the document's id. */
    method SelectOne(docId: Option<nat>) returns (result: Outcome<Option<Record>>)
      requires Valid()
      ensures docId.None? && rows == [] ==> result == Returned(None)
      ensures docId.None? && |rows| > 1 ==> result.Raised?
      ensures docId.None? && |rows| == 1 ==> result == Returned(Some(Record(Some(rows[0].id), rows[0].fields)))
      ensures docId.Some? ==>
        if Find(rows, docId.value).None? || Find(rows, docId.value) == Some(map[]) then result == Returned(None)
        else result == Returned(Some(Record(docId, Find(rows, docId.value).value)))
    {
      if docId.None? {
        if rows == [] {
          return Returned(None);
        }
        if |rows| != 1 {
          return Raised("Table contains multiple rows");
        }
        var doc := rows[0];
        return Returned(Some(Record(Some(doc.id), doc.fields)));
      }
      var doc := Find(rows, docId.value);
      if doc.None? || doc.value == map[] {
        return Returned(None);
      }
      result := Returned(Some(Record(docId, doc.value)));
    }

    /** `select_all(table, cls)`: one record per document, in table order,
        each carrying its own id. */
    method SelectAll() returns (result: seq<Record>)
      requires Valid()
      ensures |result| == |rows|
      ensures forall i :: 0 <= i < |rows| ==> result[i] == Record(Some(rows[i].id), rows[i].fields)
      ensures forall i :: 0 <= i < |rows| ==> Find(rows, result[i].id.value) == Some(result[i].fields)
    {
      result := [];
      for i := 0 to |rows|
        invariant |result| == i
        invariant forall k :: 0 <= k < i ==> result[k] == Record(Some(rows[k].id), rows[k].fields)
      {
        result := result + [Record(Some(rows[i].id), rows[i].fields)];
      }
      forall i | 0 <= i < |rows| ensures Find(rows, result[i].id.value) == Some(result[i].fields) {
        FindAt(rows, i);
      }
    }

    /** `delete_one(table, doc_id)`: removes the document and reports
        whether exactly one was removed. */
    method DeleteOne(docId: nat) returns (deleted: bool)
      requires Valid()
      modifies this
      ensures Valid()
      ensures rows == Without(old(rows), docId)
      ensures deleted <==> Find(old(rows), docId).Some?
      ensures Find(rows, docId).None?
    {
      var before := |rows|;
      WithoutIncreasing(rows, docId);
      WithoutPresent(rows, docId);
      rows := Without(rows, docId);
      deleted := before - |rows| == 1;
    }
  }
}
