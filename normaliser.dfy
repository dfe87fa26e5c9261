/** The normaliser as the source runs it: one object holding the registry, updated in place by
    `checkHeaders` and `writeLine`. Each method is proved to leave exactly the state, and stop
    with exactly the fault, that the specification functions compute. */
module Normalisers {
  import opened JsonValues
  import opened Registry
  import opened Discovery
  import opened Writing
  import Ingestion

  /** The loop state of `WriteField`: lines `m` on, written from `st`, give `goal`. */
  ghost predicate LinesLeft(st: State, data: Json, name: string, parentKey: Slot, field: string, m: nat, goal: Run) {
    && Listed(st) && name in st.baseFiles && field in st.baseFiles && m <= |Items(data, field)|
    && WriteLines(st, data, name, parentKey, field, m) == goal
  }

  class Normaliser {
    /** `Object.keys(baseFiles)`, in insertion order. */
    var names: seq<string>
    var baseFiles: map<string, Table>
    var junctionFiles: map<string, Junction>

    function Current(): State
      reads this
    {
      State(names, baseFiles, junctionFiles)
    }

    /** The registry at the start of a run: the four base tables, no junctions. */
    constructor ()
      ensures Current() == Initial()
    {
      names := ["movies", "cast", "crew", "people"];
      baseFiles := map[
        "movies" := EmptyTable("id"),
        "cast" := EmptyTable("credit_id"),
        "crew" := EmptyTable("credit_id"),
        "people" := EmptyTable("id")];
      junctionFiles := map[];
    }

    /** One record as the driver hands it over: `checkHeaders`, then `writeLine`. */
    method Ingest(data: Json, name: string) returns (fault: Option<Fault>)
      requires Valid(Current()) && name in baseFiles && data.JObj?
      modifies this
      ensures Run(Current(), fault) == Ingestion.Ingest(old(Current()), data, name)
    {
      fault := CheckHeaders(data, name);
      if fault.Some? {
        return;
      }
      ValidListed(Current());
      fault := WriteLine(data, name);
    }

    /** `checkHeaders(data, baseFiles[name])`: while the table has no columns, the `filter` over
        the sample's members classifies each one, and the members kept become the columns. */
    method CheckHeaders(data: Json, name: string) returns (fault: Option<Fault>)
      requires Valid(Current()) && name in baseFiles && data.JObj?
      modifies this
      ensures Run(Current(), fault) == Discover(old(Current()), data, name)
      decreases Size(data), 2
    {
      if baseFiles[name].order != [] {
        return None;
      }
      var kept: seq<string> := [];
      var i := 0;
      while i < |data.fields|
        invariant 0 <= i <= |data.fields|
        invariant Valid(Current()) && name in baseFiles
        invariant DiscoverFields(Current(), data, name, i, kept) == Discover(old(Current()), data, name)
        decreases |data.fields| - i
      {
        var key := data.fields[i].0;
        var value := data.fields[i].1;
        MemberSmaller(data, i);
        fault := Classify(name, key, value);
        if fault.Some? {
          return;
        }
        kept := Keep(kept, key, value);
        i := i + 1;
      }
      var t := baseFiles[name];
      baseFiles := baseFiles[name := t.(order := kept, headerLines := t.headerLines + [kept])];
      fault := None;
    }

    /** The body of the `filter` callback for member `key` of table `parent`'s sample, apart
        from its verdict: a non-empty array or object is promoted when its nested sample
        defines a candidate key. */
    method Classify(parent: string, key: string, value: Json) returns (fault: Option<Fault>)
      requires Valid(Current()) && parent in baseFiles
      modifies this
      ensures Run(Current(), fault) == PromoteField(old(Current()), parent, key, value)
      decreases Size(value), 4
    {
      if !(IsObject(value) && KeyCount(value) > 0) {
        return None;
      }
      var nestedSample := Sample(value);
      if nestedSample.JNull? {
        return Some(NullSample(key));
      }
      var childKey := FindKey(nestedSample);
      if childKey.None? {
        return None;
      }
      fault := PromoteNested(parent, key, value, childKey.value);
    }

    /** Registers table `key` and junction `<parent>_<key>` when `key` is new, then runs
        `checkHeaders` on the nested sample and on the pair sample of the junction. */
    method PromoteNested(parent: string, key: string, value: Json, childKey: string) returns (fault: Option<Fault>)
      requires Valid(Current()) && parent in baseFiles && IsObject(value) && KeyCount(value) > 0
      requires FindKey(Sample(value)) == Some(childKey)
      modifies this
      ensures Run(Current(), fault) == Promote(old(Current()), parent, key, value, childKey)
      decreases Size(value), 3
    {
      var jn := JunctionName(parent, key);
      if key !in baseFiles {
        names := names + [key];
        baseFiles := baseFiles[key := EmptyTable(childKey)];
        junctionFiles := junctionFiles[jn := EmptyJunction];
      }
      LineSmaller(value, 0);
      fault := CheckHeaders(Sample(value), key);
      if fault.Some? {
        return;
      }
      if jn !in junctionFiles {
        return Some(MissingJunction(jn));
      }
      var junction := junctionFiles[jn];
      if junction.order == [] {
        var cols := Columns(PairSample(parent, key).fields);
        junctionFiles := junctionFiles[jn := junction.(order := cols, headerLines := junction.headerLines + [cols])];
      }
    }

    /** `writeLine(data, baseFiles[name])`: the dedup gate, the projected row, then for each
        registered name whose member is an array or object, each of its lines written to that
        table followed by one junction row. */
    method WriteLine(data: Json, name: string) returns (fault: Option<Fault>)
      requires Listed(Current()) && name in baseFiles
      modifies this
      ensures Run(Current(), fault) == Write(old(Current()), data, name)
      decreases Size(data), 3
    {
      if data.JNull? {
        return Some(NullRecord);
      }
      var key := Get(data, baseFiles[name].objKey);
      if IsObjectSlot(key) {
        return Some(ObjectKey);
      }
      if key in baseFiles[name].includedKeys {
        return None;
      }
      var t := baseFiles[name];
      baseFiles := baseFiles[name := t.(includedKeys := t.includedKeys + {key}, rows := t.rows + [Project(data, t.order)])];
      var j := 0;
      while j < |names|
        invariant 0 <= j <= |names|
        invariant Listed(Current()) && name in baseFiles
        invariant WriteChildren(Current(), data, name, key, j) == Write(old(Current()), data, name)
        decreases |names| - j
      {
        if !IsObject(data) {
          return Some(PrimitiveRecord);
        }
        var field := names[j];
        if IsObjectSlot(Get(data, field)) {
          fault := WriteField(data, name, key, field);
          if fault.Some? {
            return;
          }
        }
        j := j + 1;
      }
      fault := None;
    }

    /** The `forEach` over the lines of member `field`: each line is written to table `field`,
        then one row pairing `parentKey` with the line's key is appended to junction
        `<name>_<field>`, whether or not the line was new to its table. */
    method WriteField(data: Json, name: string, parentKey: Slot, field: string) returns (fault: Option<Fault>)
      requires Listed(Current()) && name in baseFiles && field in baseFiles
      modifies this
      ensures Run(Current(), fault) == WriteLines(old(Current()), data, name, parentKey, field, 0)
      decreases Size(data), 1
    {
      var lines := Items(data, field);
      ghost var goal := WriteLines(Current(), data, name, parentKey, field, 0);
      var m := 0;
      while m < |lines|
        invariant LinesLeft(Current(), data, name, parentKey, field, m, goal)
        decreases |lines| - m
      {
        ghost var before := Current();
        fault := WriteLineWithPair(data, name, parentKey, field, m);
        WriteLinesStep(before, data, name, parentKey, field, m);
        if fault.Some? {
          return;
        }
        ListedKept(before, Current());
        m := m + 1;
      }
      fault := None;
    }

    /** The callback of that `forEach` for line `m`: the line to its table, then its pair to
        the junction. */
    method WriteLineWithPair(data: Json, name: string, parentKey: Slot, field: string, m: nat) returns (fault: Option<Fault>)
      requires Listed(Current()) && name in baseFiles && field in baseFiles && m < |Items(data, field)|
      modifies this
      ensures Run(Current(), fault) == WriteItem(old(Current()), data, name, parentKey, field, m)
      decreases Size(data), 0
    {
      var line := Items(data, field)[m];
      ItemSmaller(data, field, m);
      fault := WriteLine(line, field);
      if fault.Some? {
        return;
      }
      var jn := JunctionName(name, field);
      if jn !in junctionFiles {
        return Some(MissingJunction(jn));
      }
      var childKey := Get(line, baseFiles[field].objKey);
      var junction := junctionFiles[jn];
      junctionFiles := junctionFiles[jn := junction.(rows := junction.rows + [PairRow(junction.order, name, parentKey, field, childKey)])];
    }
  }
}
