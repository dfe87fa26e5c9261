/** The write engine (`writeLine`): a first-write-wins gate on the table's key, the row
    projected onto the frozen column order, then every registered table's field of the record
    written depth-first, each element followed by one junction row. */
module Writing {
  import opened JsonValues
  import opened Registry

  /** The record's values for the columns `order`, in that order; a missing member is `undefined`. */
  function Project(data: Json, order: seq<string>): (row: Row)
    ensures |row| == |order|
    ensures forall i :: 0 <= i < |order| ==> row[i] == Get(data, order[i])
  {
    seq(|order|, i requires 0 <= i < |order| => Get(data, order[i]))
  }

  /** `data[baseFile.objKey]` */
  function KeyOf(st: State, data: Json, name: string): Slot
    requires name in st.baseFiles
  {
    Get(data, st.baseFiles[name].objKey)
  }

  /** The gate let the record through: its key joins `includedKeys` and its projected row
      joins the table's sink. */
  function Accept(st: State, name: string, data: Json, key: Slot): (st': State)
    requires name in st.baseFiles
    ensures st'.names == st.names && st'.junctionFiles == st.junctionFiles
    ensures st'.baseFiles.Keys == st.baseFiles.Keys
    ensures forall n :: n in st.baseFiles && n != name ==> st'.baseFiles[n] == st.baseFiles[n]
  {
    var t := st.baseFiles[name];
    st.(baseFiles := st.baseFiles[name := t.(
      includedKeys := t.includedKeys + {key},
      rows := t.rows + [Project(data, t.order)])])
  }

  /** The junction record `{[parent]: parentKey, [field]: childKey}` projected on a junction's
      order; when the two names are equal the record has one member, holding `childKey`. */
  function PairRow(order: seq<string>, parent: string, parentKey: Slot, field: string, childKey: Slot): (row: Row)
    ensures |row| == |order|
    ensures forall i :: 0 <= i < |order| ==>
      row[i] == (if order[i] == field then childKey else if order[i] == parent then parentKey else Undefined)
  {
    var pair := map[parent := parentKey][field := childKey];
    seq(|order|, i requires 0 <= i < |order| => if order[i] in pair then pair[order[i]] else Undefined)
  }

  /** Appends one junction row: `writeLine` on a junction, which has no `includedKeys` and whose
      record holds only key values, so no field of it is written further. */
  function AppendPair(st: State, jn: string, parent: string, parentKey: Slot, field: string, childKey: Slot): (st': State)
    requires jn in st.junctionFiles
    ensures st'.names == st.names && st'.baseFiles == st.baseFiles
    ensures st'.junctionFiles.Keys == st.junctionFiles.Keys
    ensures forall j :: j in st.junctionFiles && j != jn ==> st'.junctionFiles[j] == st.junctionFiles[j]
  {
    var junction := st.junctionFiles[jn];
    var row := PairRow(junction.order, parent, parentKey, field, childKey);
    st.(junctionFiles := st.junctionFiles[jn := junction.(rows := junction.rows + [row])])
  }

  /** `writeLine(data, baseFiles[name])` */
  function Write(st: State, data: Json, name: string): (r: Run)
    requires Listed(st) && name in st.baseFiles
    ensures r.st.names == st.names && r.st.baseFiles.Keys == st.baseFiles.Keys
    decreases Size(data), 3
  {
    if data.JNull? then Run(st, Some(NullRecord))
    else
      var key := KeyOf(st, data, name);
      if IsObjectSlot(key) then Run(st, Some(ObjectKey))
      else if key in st.baseFiles[name].includedKeys then Run(st, None)
      else WriteChildren(Accept(st, name, data, key), data, name, key, 0)
  }

  /** The `forEach` over the registered table names from position `j` on: a name whose member in
      the record is an array or object has that member written to the table of that name. */
  function WriteChildren(st: State, data: Json, name: string, parentKey: Slot, j: nat): (r: Run)
    requires Listed(st) && name in st.baseFiles && !data.JNull? && j <= |st.names|
    ensures r.st.names == st.names && r.st.baseFiles.Keys == st.baseFiles.Keys
    decreases Size(data), 2, |st.names| - j
  {
    if j == |st.names| then Run(st, None)
    else if !IsObject(data) then Run(st, Some(PrimitiveRecord))
    else
      var field := st.names[j];
      if IsObjectSlot(Get(data, field)) then
        var r := WriteLines(st, data, name, parentKey, field, 0);
        if r.fault.Some? then r
        else WriteChildren(r.st, data, name, parentKey, j + 1)
      else WriteChildren(st, data, name, parentKey, j + 1)
  }

  /** The `forEach` over the lines of member `field` from line `m` on. */
  function WriteLines(st: State, data: Json, name: string, parentKey: Slot, field: string, m: nat): (r: Run)
    requires Listed(st) && name in st.baseFiles && field in st.baseFiles
    requires m <= |Items(data, field)|
    ensures r.st.names == st.names && r.st.baseFiles.Keys == st.baseFiles.Keys
    decreases Size(data), 1, |Items(data, field)| - m
  {
    if m == |Items(data, field)| then Run(st, None)
    else
      var r := WriteItem(st, data, name, parentKey, field, m);
      if r.fault.Some? then r
      else WriteLines(r.st, data, name, parentKey, field, m + 1)
  }

  /** Unfolds `WriteLines` by one line. */
  lemma WriteLinesStep(st: State, data: Json, name: string, parentKey: Slot, field: string, m: nat)
    requires Listed(st) && name in st.baseFiles && field in st.baseFiles && m < |Items(data, field)|
    ensures var r := WriteItem(st, data, name, parentKey, field, m);
      WriteLines(st, data, name, parentKey, field, m) == if r.fault.Some? then r else WriteLines(r.st, data, name, parentKey, field, m + 1)
  {
  }

  /** One pass of that `forEach`: line `m` is written to table `field`, then one row
      `(parentKey, line[childKey])` to junction `<name>_<field>`, whether or not the line itself
      was new. */
  function WriteItem(st: State, data: Json, name: string, parentKey: Slot, field: string, m: nat): (r: Run)
    requires Listed(st) && name in st.baseFiles && field in st.baseFiles
    requires m < |Items(data, field)|
    ensures r.st.names == st.names && r.st.baseFiles.Keys == st.baseFiles.Keys
    decreases Size(data), 0
  {
    var line := Items(data, field)[m];
    ItemSmaller(data, field, m);
    var r := Write(st, line, field);
    if r.fault.Some? then r
    else
      var jn := JunctionName(name, field);
      if jn !in r.st.junctionFiles then Run(r.st, Some(MissingJunction(jn)))
      else
        var childKey := Get(line, r.st.baseFiles[field].objKey);
        Run(AppendPair(r.st, jn, name, parentKey, field, childKey), None)
  }
}
