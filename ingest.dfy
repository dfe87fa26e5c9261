/** The pair of calls the driver makes for every record it fetches: `checkHeaders(record, table)`
    then `writeLine(record, table)`, and what the pair guarantees across records. */
module Ingestion {
  import opened JsonValues
  import opened Registry
  import opened Discovery
  import opened DiscoveryProperties
  import opened Writing
  import opened WritingProperties

  /** Discovery on the record, then the write, unless discovery stopped with a fault. */
  function Ingest(st: State, data: Json, name: string): (r: Run)
    requires Valid(st) && name in st.baseFiles && data.JObj?
    ensures Valid(r.st) && st.baseFiles.Keys <= r.st.baseFiles.Keys
  {
    var d := Discover(st, data, name);
    if d.fault.Some? then d
    else
      ValidListed(d.st);
      Write(d.st, data, name)
  }

  /** The first record of an undiscovered table fixes its columns to the record's scalar
      members, in the record's order, and is itself written as exactly those values. */
  lemma IngestFirstRecord(st: State, data: Json, name: string)
    requires Valid(st) && name in st.baseFiles && data.JObj? && st.baseFiles[name].order == []
    requires Discover(st, data, name).fault.None?
    requires !IsObjectSlot(KeyOf(st, data, name)) && KeyOf(st, data, name) !in st.baseFiles[name].includedKeys
    ensures var t, t' := st.baseFiles[name], Ingest(st, data, name).st.baseFiles[name];
      && t'.order == Columns(data.fields)
      && |t.rows| < |t'.rows| && t'.rows[..|t.rows|] == t.rows
      && t'.rows[|t.rows|] == Project(data, Columns(data.fields))
  {
    var d := Discover(st, data, name);
    DiscoverColumns(st, data, name);
    DiscoverExtends(st, data, name);
    assert Keeps(st.baseFiles[name], d.st.baseFiles[name]);
    ValidListed(d.st);
    WriteAccepted(d.st, data, name);
  }

  /** Once a table's columns are fixed, a later record is written against those same columns:
      discovery does nothing, and a new key adds the record's values for exactly those columns. */
  lemma ColumnsFrozen(st: State, data: Json, name: string)
    requires Valid(st) && name in st.baseFiles && data.JObj? && st.baseFiles[name].order != []
    requires !IsObjectSlot(KeyOf(st, data, name)) && KeyOf(st, data, name) !in st.baseFiles[name].includedKeys
    ensures var t, t' := st.baseFiles[name], Ingest(st, data, name).st.baseFiles[name];
      && t'.order == t.order
      && |t.rows| < |t'.rows| && t'.rows[..|t.rows|] == t.rows
      && t'.rows[|t.rows|] == Project(data, t.order)
  {
    ValidListed(st);
    WriteAccepted(st, data, name);
  }

  /** First write wins: after a record went through a table with fixed columns, any later
      record carrying the same key value changes nothing at all. */
  lemma FirstWriteWins(st: State, first: Json, later: Json, name: string)
    requires Valid(st) && name in st.baseFiles && first.JObj? && later.JObj?
    requires Ingest(st, first, name).fault.None?
    requires Ingest(st, first, name).st.baseFiles[name].order != []
    requires KeyOf(st, later, name) == KeyOf(st, first, name)
    ensures var st' := Ingest(st, first, name).st;
      Ingest(st', later, name) == Run(st', None)
  {
    var d := Discover(st, first, name);
    DiscoverExtends(st, first, name);
    assert Keeps(st.baseFiles[name], d.st.baseFiles[name]);
    ValidListed(d.st);
    WriteRecordsKey(d.st, first, name);
    var st' := Ingest(st, first, name).st;
    assert Discover(st', later, name) == Run(st', None);
    assert KeyOf(st', later, name) == KeyOf(d.st, first, name);
  }

  /** Records without the key field all carry the key `undefined`: after the first of them went
      through a table with fixed columns, every later one is dropped whole. */
  lemma MissingKeysCollide(st: State, first: Json, later: Json, name: string)
    requires Valid(st) && name in st.baseFiles && first.JObj? && later.JObj?
    requires Ingest(st, first, name).fault.None?
    requires Ingest(st, first, name).st.baseFiles[name].order != []
    requires KeyOf(st, first, name) == Undefined && KeyOf(st, later, name) == Undefined
    ensures var st' := Ingest(st, first, name).st;
      Ingest(st', later, name) == Run(st', None)
  {
    FirstWriteWins(st, first, later, name);
  }

  /** Discovery writes no data row and starts every new table empty, so one row per key
      survives it; the write keeps it too. */
  lemma IngestOneRowPerKey(st: State, data: Json, name: string)
    requires Valid(st) && name in st.baseFiles && data.JObj? && OneRowPerKey(st)
    ensures OneRowPerKey(Ingest(st, data, name).st)
  {
    var d := Discover(st, data, name);
    DiscoverExtends(st, data, name);
    forall n | n in d.st.baseFiles
      ensures |d.st.baseFiles[n].rows| == |d.st.baseFiles[n].includedKeys|
    {
      if n in st.baseFiles {
        assert Keeps(st.baseFiles[n], d.st.baseFiles[n]);
      }
    }
    if d.fault.None? {
      ValidListed(d.st);
      WriteOneRowPerKey(d.st, data, name);
    }
  }
}
