/** What `writeLine` does to the registry: the schema stays put, sinks only grow, each entity
    table keeps one row per key, a key is written once, and junction rows are never deduplicated. */
module WritingProperties {
  import opened JsonValues
  import opened Registry
  import opened Writing

  /** Key field, column order and header lines of a table. */
  ghost predicate SameTableSchema(t: Table, t': Table) {
    t'.objKey == t.objKey && t'.order == t.order && t'.headerLines == t.headerLines
  }

  /** Writing never registers, renames or re-discovers anything. */
  ghost predicate SameSchema(st: State, st': State) {
    && st'.names == st.names
    && st'.baseFiles.Keys == st.baseFiles.Keys
    && st'.junctionFiles.Keys == st.junctionFiles.Keys
    && (forall n :: n in st.baseFiles ==> SameTableSchema(st.baseFiles[n], st'.baseFiles[n]))
    && (forall j :: j in st.junctionFiles ==>
          && st'.junctionFiles[j].order == st.junctionFiles[j].order
          && st'.junctionFiles[j].headerLines == st.junctionFiles[j].headerLines)
  }

  /** Keys are only added, rows only appended, each new row one value per column. */
  ghost predicate TableGrows(t: Table, t': Table) {
    && t.includedKeys <= t'.includedKeys
    && t.rows <= t'.rows
    && forall i :: |t.rows| <= i < |t'.rows| ==> |t'.rows[i]| == |t'.order|
  }

  ghost predicate JunctionGrows(u: Junction, u': Junction) {
    && u.rows <= u'.rows
    && forall i :: |u.rows| <= i < |u'.rows| ==> |u'.rows[i]| == |u'.order|
  }

  /** The schema is unchanged and every sink only grew. */
  ghost predicate WritesOnly(st: State, st': State) {
    && SameSchema(st, st')
    && (forall n :: n in st.baseFiles ==> TableGrows(st.baseFiles[n], st'.baseFiles[n]))
    && (forall j :: j in st.junctionFiles ==> JunctionGrows(st.junctionFiles[j], st'.junctionFiles[j]))
  }

  lemma WritesOnlyRefl(st: State)
    ensures WritesOnly(st, st)
  {
  }

  lemma WritesOnlyTrans(a: State, b: State, c: State)
    requires WritesOnly(a, b) && WritesOnly(b, c)
    ensures WritesOnly(a, c)
  {
    forall n | n in a.baseFiles
      ensures TableGrows(a.baseFiles[n], c.baseFiles[n])
    {
      var ta, tb, tc := a.baseFiles[n], b.baseFiles[n], c.baseFiles[n];
      assert TableGrows(ta, tb) && TableGrows(tb, tc) && tb.order == tc.order;
      forall i | |ta.rows| <= i < |tc.rows|
        ensures |tc.rows[i]| == |tc.order|
      {
        if i < |tb.rows| {
          assert tc.rows[i] == tb.rows[i];
        }
      }
    }
    forall j | j in a.junctionFiles
      ensures JunctionGrows(a.junctionFiles[j], c.junctionFiles[j])
    {
      var ua, ub, uc := a.junctionFiles[j], b.junctionFiles[j], c.junctionFiles[j];
      assert JunctionGrows(ua, ub) && JunctionGrows(ub, uc) && ub.order == uc.order;
      forall i | |ua.rows| <= i < |uc.rows|
        ensures |uc.rows[i]| == |uc.order|
      {
        if i < |ub.rows| {
          assert uc.rows[i] == ub.rows[i];
        }
      }
    }
  }

  /** Accepting a new key adds exactly one row, so one row per key is kept. */
  lemma AcceptFrame(st: State, name: string, data: Json, key: Slot)
    requires name in st.baseFiles && key !in st.baseFiles[name].includedKeys
    ensures WritesOnly(st, Accept(st, name, data, key))
    ensures var t, t' := st.baseFiles[name], Accept(st, name, data, key).baseFiles[name];
      && t'.includedKeys == t.includedKeys + {key} && |t'.includedKeys| == |t.includedKeys| + 1
      && |t'.rows| == |t.rows| + 1
    ensures OneRowPerKey(st) ==> OneRowPerKey(Accept(st, name, data, key))
  {
    var st' := Accept(st, name, data, key);
    var t, t' := st.baseFiles[name], st'.baseFiles[name];
    assert |t'.includedKeys| == |t.includedKeys| + 1;
    assert TableGrows(t, t');
  }

  lemma AppendPairFrame(st: State, jn: string, parent: string, parentKey: Slot, field: string, childKey: Slot)
    requires jn in st.junctionFiles
    ensures WritesOnly(st, AppendPair(st, jn, parent, parentKey, field, childKey))
    ensures |AppendPair(st, jn, parent, parentKey, field, childKey).junctionFiles[jn].rows| == |st.junctionFiles[jn].rows| + 1
  {
    var st' := AppendPair(st, jn, parent, parentKey, field, childKey);
    assert JunctionGrows(st.junctionFiles[jn], st'.junctionFiles[jn]);
  }

  /** A write changes no schema and only appends to sinks. */
  lemma {:induction false} WriteFrame(st: State, data: Json, name: string)
    requires Listed(st) && name in st.baseFiles
    ensures WritesOnly(st, Write(st, data, name).st)
    decreases Size(data), 3
  {
    if data.JNull? {
      WritesOnlyRefl(st);
    } else {
      var key := KeyOf(st, data, name);
      if IsObjectSlot(key) || key in st.baseFiles[name].includedKeys {
        WritesOnlyRefl(st);
      } else {
        var st1 := Accept(st, name, data, key);
        AcceptFrame(st, name, data, key);
        WriteChildrenFrame(st1, data, name, key, 0);
        WritesOnlyTrans(st, st1, Write(st, data, name).st);
      }
    }
  }

  lemma {:induction false} WriteChildrenFrame(st: State, data: Json, name: string, parentKey: Slot, j: nat)
    requires Listed(st) && name in st.baseFiles && !data.JNull? && j <= |st.names|
    ensures WritesOnly(st, WriteChildren(st, data, name, parentKey, j).st)
    decreases Size(data), 2, |st.names| - j
  {
    if j == |st.names| || !IsObject(data) {
      WritesOnlyRefl(st);
    } else {
      var field := st.names[j];
      if IsObjectSlot(Get(data, field)) {
        var r := WriteLines(st, data, name, parentKey, field, 0);
        WriteLinesFrame(st, data, name, parentKey, field, 0);
        if r.fault.None? {
          WriteChildrenFrame(r.st, data, name, parentKey, j + 1);
          WritesOnlyTrans(st, r.st, WriteChildren(st, data, name, parentKey, j).st);
        }
      } else {
        WriteChildrenFrame(st, data, name, parentKey, j + 1);
      }
    }
  }

  lemma {:induction false} WriteLinesFrame(st: State, data: Json, name: string, parentKey: Slot, field: string, m: nat)
    requires Listed(st) && name in st.baseFiles && field in st.baseFiles
    requires m <= |Items(data, field)|
    ensures WritesOnly(st, WriteLines(st, data, name, parentKey, field, m).st)
    decreases Size(data), 1, |Items(data, field)| - m
  {
    if m == |Items(data, field)| {
      WritesOnlyRefl(st);
    } else {
      var r := WriteItem(st, data, name, parentKey, field, m);
      WriteItemFrame(st, data, name, parentKey, field, m);
      if r.fault.None? {
        WriteLinesFrame(r.st, data, name, parentKey, field, m + 1);
        WritesOnlyTrans(st, r.st, WriteLines(st, data, name, parentKey, field, m).st);
      }
    }
  }

  lemma {:induction false} WriteItemFrame(st: State, data: Json, name: string, parentKey: Slot, field: string, m: nat)
    requires Listed(st) && name in st.baseFiles && field in st.baseFiles
    requires m < |Items(data, field)|
    ensures WritesOnly(st, WriteItem(st, data, name, parentKey, field, m).st)
    decreases Size(data), 0
  {
    var line := Items(data, field)[m];
    ItemSmaller(data, field, m);
    var r := Write(st, line, field);
    WriteFrame(st, line, field);
    var jn := JunctionName(name, field);
    if r.fault.None? && jn in r.st.junctionFiles {
      var childKey := Get(line, r.st.baseFiles[field].objKey);
      AppendPairFrame(r.st, jn, name, parentKey, field, childKey);
      WritesOnlyTrans(st, r.st, AppendPair(r.st, jn, name, parentKey, field, childKey));
    }
  }

  /** At most one row per key: every entity table keeps exactly one row per key it has seen. */
  lemma {:induction false} WriteOneRowPerKey(st: State, data: Json, name: string)
    requires Listed(st) && name in st.baseFiles && OneRowPerKey(st)
    ensures OneRowPerKey(Write(st, data, name).st)
    decreases Size(data), 3
  {
    if !data.JNull? {
      var key := KeyOf(st, data, name);
      if !IsObjectSlot(key) && key !in st.baseFiles[name].includedKeys {
        AcceptFrame(st, name, data, key);
        WriteChildrenOneRowPerKey(Accept(st, name, data, key), data, name, key, 0);
      }
    }
  }

  lemma {:induction false} WriteChildrenOneRowPerKey(st: State, data: Json, name: string, parentKey: Slot, j: nat)
    requires Listed(st) && name in st.baseFiles && !data.JNull? && j <= |st.names| && OneRowPerKey(st)
    ensures OneRowPerKey(WriteChildren(st, data, name, parentKey, j).st)
    decreases Size(data), 2, |st.names| - j
  {
    if j < |st.names| && IsObject(data) {
      var field := st.names[j];
      if IsObjectSlot(Get(data, field)) {
        var r := WriteLines(st, data, name, parentKey, field, 0);
        WriteLinesOneRowPerKey(st, data, name, parentKey, field, 0);
        if r.fault.None? {
          WriteChildrenOneRowPerKey(r.st, data, name, parentKey, j + 1);
        }
      } else {
        WriteChildrenOneRowPerKey(st, data, name, parentKey, j + 1);
      }
    }
  }

  lemma {:induction false} WriteLinesOneRowPerKey(st: State, data: Json, name: string, parentKey: Slot, field: string, m: nat)
    requires Listed(st) && name in st.baseFiles && field in st.baseFiles && OneRowPerKey(st)
    requires m <= |Items(data, field)|
    ensures OneRowPerKey(WriteLines(st, data, name, parentKey, field, m).st)
    decreases Size(data), 1, |Items(data, field)| - m
  {
    var result := WriteLines(st, data, name, parentKey, field, m);
    if m == |Items(data, field)| {
      assert result.st == st;
      assert OneRowPerKey(result.st);
    } else {
      var r := WriteItem(st, data, name, parentKey, field, m);
      WriteItemOneRowPerKey(st, data, name, parentKey, field, m);
      if r.fault.Some? {
        assert result == r;
        assert OneRowPerKey(result.st);
      } else {
        assert result == WriteLines(r.st, data, name, parentKey, field, m + 1);
        WriteLinesOneRowPerKey(r.st, data, name, parentKey, field, m + 1);
        assert OneRowPerKey(result.st);
      }
    }
  }

  lemma {:induction false} WriteItemOneRowPerKey(st: State, data: Json, name: string, parentKey: Slot, field: string, m: nat)
    requires Listed(st) && name in st.baseFiles && field in st.baseFiles && OneRowPerKey(st)
    requires m < |Items(data, field)|
    ensures OneRowPerKey(WriteItem(st, data, name, parentKey, field, m).st)
    decreases Size(data), 0
  {
    var line := Items(data, field)[m];
    ItemSmaller(data, field, m);
    WriteOneRowPerKey(st, line, field);
  }

  /** An accepted record: its key joins the table's dedup set and the table's next row is the
      record projected onto the frozen columns, whatever its children do afterwards. */
  lemma WriteAccepted(st: State, data: Json, name: string)
    requires Listed(st) && name in st.baseFiles && !data.JNull?
    requires !IsObjectSlot(KeyOf(st, data, name)) && KeyOf(st, data, name) !in st.baseFiles[name].includedKeys
    ensures var t, t' := st.baseFiles[name], Write(st, data, name).st.baseFiles[name];
      && KeyOf(st, data, name) in t'.includedKeys
      && t'.order == t.order
      && |t.rows| < |t'.rows| && t'.rows[..|t.rows|] == t.rows
      && t'.rows[|t.rows|] == Project(data, t.order)
  {
    var key := KeyOf(st, data, name);
    var st1 := Accept(st, name, data, key);
    AcceptFrame(st, name, data, key);
    WriteChildrenFrame(st1, data, name, key, 0);
    var t1, t' := st1.baseFiles[name], Write(st, data, name).st.baseFiles[name];
    assert TableGrows(t1, t');
    assert t'.rows[|t1.rows| - 1] == t1.rows[|t1.rows| - 1];
  }

  /** A write that went through leaves the record's key in the table's dedup set, under an
      unchanged key field. */
  lemma WriteRecordsKey(st: State, data: Json, name: string)
    requires Listed(st) && name in st.baseFiles && Write(st, data, name).fault.None?
    ensures var t' := Write(st, data, name).st.baseFiles[name];
      && t'.objKey == st.baseFiles[name].objKey
      && !IsObjectSlot(KeyOf(st, data, name))
      && KeyOf(st, data, name) in t'.includedKeys
  {
    if KeyOf(st, data, name) !in st.baseFiles[name].includedKeys {
      WriteAccepted(st, data, name);
    }
    WriteFrame(st, data, name);
    assert SameTableSchema(st.baseFiles[name], Write(st, data, name).st.baseFiles[name]);
  }

  /** The gate makes a write idempotent: once a record went through, writing it again to the
      same table changes nothing. */
  lemma WriteTwice(st: State, data: Json, name: string)
    requires Listed(st) && name in st.baseFiles && Write(st, data, name).fault.None?
    ensures Write(Write(st, data, name).st, data, name) == Run(Write(st, data, name).st, None)
  {
    WriteRecordsKey(st, data, name);
  }

  /** No registered table's name holds an array or object in this record, so writing it
      recurses nowhere. */
  ghost predicate Flat(st: State, data: Json) {
    data.JObj? && forall i :: 0 <= i < |st.names| ==> !IsObjectSlot(Get(data, st.names[i]))
  }

  lemma {:induction false} WriteChildrenFlat(st: State, data: Json, name: string, parentKey: Slot, j: nat)
    requires Listed(st) && name in st.baseFiles && j <= |st.names| && Flat(st, data)
    ensures WriteChildren(st, data, name, parentKey, j) == Run(st, None)
    decreases |st.names| - j
  {
    if j < |st.names| {
      WriteChildrenFlat(st, data, name, parentKey, j + 1);
    }
  }

  /** A flat record touches its own table only: one row when its key is new, nothing otherwise. */
  lemma WriteFlat(st: State, data: Json, name: string)
    requires Listed(st) && name in st.baseFiles && Flat(st, data) && !IsObjectSlot(KeyOf(st, data, name))
    ensures var key := KeyOf(st, data, name);
      Write(st, data, name) == Run(if key in st.baseFiles[name].includedKeys then st else Accept(st, name, data, key), None)
  {
    var key := KeyOf(st, data, name);
    if key !in st.baseFiles[name].includedKeys {
      WriteChildrenFlat(Accept(st, name, data, key), data, name, key, 0);
    }
  }

  /** A line whose key its table already holds is not written again, whatever it contains, but
      its pair still is: exactly one junction row and nothing else. */
  lemma WriteItemDuplicate(st: State, data: Json, name: string, parentKey: Slot, field: string, m: nat)
    requires Listed(st) && name in st.baseFiles && field in st.baseFiles && m < |Items(data, field)|
    requires JunctionName(name, field) in st.junctionFiles
    requires var line := Items(data, field)[m];
      !line.JNull? && !IsObjectSlot(KeyOf(st, line, field)) && KeyOf(st, line, field) in st.baseFiles[field].includedKeys
    ensures WriteItem(st, data, name, parentKey, field, m)
      == Run(AppendPair(st, JunctionName(name, field), name, parentKey, field, KeyOf(st, Items(data, field)[m], field)), None)
  {
  }

  /** A parent whose junction for `field` was never registered (another parent promoted
      `field` first) writes the line to the child table and then stops on the missing
      junction, keeping what the child write did. */
  lemma WriteItemMissingJunction(st: State, data: Json, name: string, parentKey: Slot, field: string, m: nat)
    requires Listed(st) && name in st.baseFiles && field in st.baseFiles && m < |Items(data, field)|
    requires JunctionName(name, field) !in st.junctionFiles
    requires Write(st, Items(data, field)[m], field).fault.None?
    ensures WriteItem(st, data, name, parentKey, field, m)
      == Run(Write(st, Items(data, field)[m], field).st, Some(MissingJunction(JunctionName(name, field))))
  {
    WriteFrame(st, Items(data, field)[m], field);
  }

  /** One junction row per line, each pairing the parent's key with the line's key. */
  function PairRows(order: seq<string>, parent: string, parentKey: Slot, field: string, objKey: string, lines: seq<Json>): (rows: seq<Row>)
    ensures |rows| == |lines|
    ensures forall k :: 0 <= k < |lines| ==> rows[k] == PairRow(order, parent, parentKey, field, Get(lines[k], objKey))
  {
    seq(|lines|, k requires 0 <= k < |lines| => PairRow(order, parent, parentKey, field, Get(lines[k], objKey)))
  }

  /** Lines from `m` on that are flat records with plain keys. */
  ghost predicate FlatLines(st: State, lines: seq<Json>, field: string, m: nat)
  {
    field in st.baseFiles && forall k :: m <= k < |lines| ==> Flat(st, lines[k]) && !IsObjectSlot(KeyOf(st, lines[k], field))
  }

  /** The situation of the junction-row lemmas: both tables and the junction registered,
      and the lines of member `field` from line `m` on flat with plain keys. */
  ghost predicate FlatChildren(st: State, data: Json, name: string, field: string, m: nat)
  {
    && Listed(st) && name in st.baseFiles && field in st.baseFiles
    && m <= |Items(data, field)|
    && JunctionName(name, field) in st.junctionFiles
    && FlatLines(st, Items(data, field), field, m)
  }

  /** One flat line: the child table sees at most one new row, the junction exactly one. */
  lemma WriteItemFlat(st: State, data: Json, name: string, parentKey: Slot, field: string, m: nat)
    requires FlatChildren(st, data, name, field, m) && m < |Items(data, field)|
    ensures var r := WriteItem(st, data, name, parentKey, field, m);
      var jn := JunctionName(name, field);
      var junction := st.junctionFiles[jn];
      && r.fault.None?
      && r.st.names == st.names
      && r.st.junctionFiles == st.junctionFiles[jn := junction.(rows := junction.rows +
           [PairRow(junction.order, name, parentKey, field, KeyOf(st, Items(data, field)[m], field))])]
      && r.st.baseFiles.Keys == st.baseFiles.Keys
      && (forall n :: n in st.baseFiles ==> r.st.baseFiles[n].objKey == st.baseFiles[n].objKey)
  {
    var line := Items(data, field)[m];
    WriteFlat(st, line, field);
  }

  lemma FlatLinesKept(st: State, st': State, lines: seq<Json>, field: string, m: nat)
    requires field in st'.baseFiles && FlatLines(st, lines, field, m)
    requires st'.names == st.names && st'.baseFiles[field].objKey == st.baseFiles[field].objKey
    ensures FlatLines(st', lines, field, m)
  {
    forall k | m <= k < |lines|
      ensures Flat(st', lines[k]) && !IsObjectSlot(KeyOf(st', lines[k], field))
    {
      assert Flat(st, lines[k]) && !IsObjectSlot(KeyOf(st, lines[k], field));
    }
  }

  lemma PairRowsCons(order: seq<string>, parent: string, parentKey: Slot, field: string, objKey: string, lines: seq<Json>, m: nat)
    requires m < |lines|
    ensures PairRows(order, parent, parentKey, field, objKey, lines[m..]) ==
      [PairRow(order, parent, parentKey, field, Get(lines[m], objKey))] + PairRows(order, parent, parentKey, field, objKey, lines[m + 1..])
  {
    assert lines[m..][1..] == lines[m + 1..];
  }

  /** The run went through and junction `jn` received exactly the rows `added`. */
  ghost predicate JunctionAppended(st: State, r: Run, jn: string, added: seq<Row>)
    requires jn in st.junctionFiles
  {
    r.fault.None? && jn in r.st.junctionFiles && r.st.junctionFiles[jn].rows == st.junctionFiles[jn].rows + added
  }

  /** The junction rows the lines of member `field` from line `m` on stand for. */
  function ExpectedPairs(st: State, data: Json, name: string, parentKey: Slot, field: string, m: nat): seq<Row>
    requires field in st.baseFiles && JunctionName(name, field) in st.junctionFiles && m <= |Items(data, field)|
  {
    PairRows(st.junctionFiles[JunctionName(name, field)].order, name, parentKey, field, st.baseFiles[field].objKey, Items(data, field)[m..])
  }

  /** One step of the junction-row induction: the line's pass appends its pair and keeps
      everything the remaining lines need. */
  lemma WriteItemFlatStep(st: State, data: Json, name: string, parentKey: Slot, field: string, m: nat)
    requires FlatChildren(st, data, name, field, m) && m < |Items(data, field)|
    ensures JunctionAppended(st, WriteItem(st, data, name, parentKey, field, m), JunctionName(name, field),
      [PairRow(st.junctionFiles[JunctionName(name, field)].order, name, parentKey, field, KeyOf(st, Items(data, field)[m], field))])
    ensures FlatChildren(WriteItem(st, data, name, parentKey, field, m).st, data, name, field, m + 1)
    ensures ExpectedPairs(WriteItem(st, data, name, parentKey, field, m).st, data, name, parentKey, field, m + 1)
      == ExpectedPairs(st, data, name, parentKey, field, m + 1)
  {
    WriteItemFlat(st, data, name, parentKey, field, m);
    FlatLinesKept(st, WriteItem(st, data, name, parentKey, field, m).st, Items(data, field), field, m + 1);
  }

  lemma JunctionAppendedTrans(st: State, r1: Run, r2: Run, jn: string, a: seq<Row>, b: seq<Row>)
    requires jn in st.junctionFiles && JunctionAppended(st, r1, jn, a) && JunctionAppended(r1.st, r2, jn, b)
    ensures JunctionAppended(st, r2, jn, a + b)
  {
    assert st.junctionFiles[jn].rows + a + b == st.junctionFiles[jn].rows + (a + b);
  }

  lemma ExpectedPairsCons(st: State, data: Json, name: string, parentKey: Slot, field: string, m: nat)
    requires field in st.baseFiles && JunctionName(name, field) in st.junctionFiles && m < |Items(data, field)|
    ensures ExpectedPairs(st, data, name, parentKey, field, m) ==
      [PairRow(st.junctionFiles[JunctionName(name, field)].order, name, parentKey, field, KeyOf(st, Items(data, field)[m], field))]
        + ExpectedPairs(st, data, name, parentKey, field, m + 1)
  {
    PairRowsCons(st.junctionFiles[JunctionName(name, field)].order, name, parentKey, field, st.baseFiles[field].objKey, Items(data, field), m);
  }

  /** Flat lines with plain keys: each line gets its own junction row, whether or not the line
      was new to the child table, so repeated pairs are all kept. */
  lemma {:induction false} WriteLinesJunctionRows(st: State, data: Json, name: string, parentKey: Slot, field: string, m: nat)
    requires FlatChildren(st, data, name, field, m)
    ensures JunctionAppended(st, WriteLines(st, data, name, parentKey, field, m), JunctionName(name, field),
      ExpectedPairs(st, data, name, parentKey, field, m))
    decreases |Items(data, field)| - m
  {
    if m == |Items(data, field)| {
      assert Items(data, field)[m..] == [];
    } else {
      var r := WriteItem(st, data, name, parentKey, field, m);
      WriteItemFlatStep(st, data, name, parentKey, field, m);
      var rest := WriteLines(r.st, data, name, parentKey, field, m + 1);
      WriteLinesJunctionRows(r.st, data, name, parentKey, field, m + 1);
      JunctionAppendedTrans(st, r, rest, JunctionName(name, field),
        [PairRow(st.junctionFiles[JunctionName(name, field)].order, name, parentKey, field, KeyOf(st, Items(data, field)[m], field))],
        ExpectedPairs(st, data, name, parentKey, field, m + 1));
      ExpectedPairsCons(st, data, name, parentKey, field, m);
    }
  }
}
