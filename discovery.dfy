/** Lazy schema discovery (`checkHeaders`): fixes a table's column order from its first
    sample and promotes nested objects and arrays into child and junction tables. */
module Discovery {
  import opened JsonValues
  import opened Registry

  /** The position of the first candidate, from position `i` on, that the nested sample defines. */
  function FirstDefined(sample: Json, i: nat): (r: Option<nat>)
    requires i <= |FixedPromotableKeys|
    ensures r.Some? ==>
      && i <= r.value < |FixedPromotableKeys|
      && Get(sample, FixedPromotableKeys[r.value]).Defined?
      && forall j :: i <= j < r.value ==> Get(sample, FixedPromotableKeys[j]) == Undefined
    ensures r.None? ==> forall j :: i <= j < |FixedPromotableKeys| ==> Get(sample, FixedPromotableKeys[j]) == Undefined
    decreases |FixedPromotableKeys| - i
  {
    if i == |FixedPromotableKeys| then None
    else if Get(sample, FixedPromotableKeys[i]).Defined? then Some(i)
    else FirstDefined(sample, i + 1)
  }

  /** `FIXED_PROMOTABLE_KEYS.find(pKey => nestedSample[pKey] !== undefined)`: the first
      candidate key the nested sample defines. A member whose value is `null` is defined;
      arrays and primitives define none. */
  function FindKey(sample: Json): (r: Option<string>)
    ensures r.None? <==> forall c :: c in FixedPromotableKeys ==> Get(sample, c) == Undefined
    ensures r.Some? ==>
      exists i :: 0 <= i < |FixedPromotableKeys| && FixedPromotableKeys[i] == r.value
        && Get(sample, r.value).Defined?
        && forall j :: 0 <= j < i ==> Get(sample, FixedPromotableKeys[j]) == Undefined
    ensures r.Some? ==> r.value in FixedPromotableKeys && sample.JObj?
  {
    match FirstDefined(sample, 0)
    case None => None
    case Some(i) => Some(FixedPromotableKeys[i])
  }

  /** The member names a sample keeps as columns: those whose value is a primitive or null,
      in the sample's own order. Arrays and objects never become columns. */
  function Columns(fs: seq<(string, Json)>): (cols: seq<string>)
    ensures |cols| <= |fs|
    ensures forall c :: c in cols <==> exists i :: 0 <= i < |fs| && fs[i].0 == c && !IsObject(fs[i].1)
  {
    if fs == [] then []
    else
      var rest := Columns(fs[1..]);
      assert forall i :: 0 < i < |fs| ==> fs[i] == fs[1..][i - 1];
      (if IsObject(fs[0].1) then [] else [fs[0].0]) + rest
  }

  /** Column selection respects the order of the sample's members. */
  lemma {:induction false} ColumnsAppend(a: seq<(string, Json)>, b: seq<(string, Json)>)
    ensures Columns(a + b) == Columns(a) + Columns(b)
  {
    if a == [] {
      assert a + b == b;
    } else {
      assert (a + b)[0] == a[0];
      assert (a + b)[1..] == a[1..] + b;
      ColumnsAppend(a[1..], b);
    }
  }

  /** Unfolds `Columns` on a suffix by one member. */
  lemma ColumnsStep(fs: seq<(string, Json)>, i: nat)
    requires i < |fs|
    ensures Columns(fs[i..]) == (if IsObject(fs[i].1) then [] else [fs[i].0]) + Columns(fs[i + 1..])
  {
    assert fs[i..][1..] == fs[i + 1..];
  }

  /** The nested sample a promotable field is classified by: its first element, or itself. */
  function Sample(v: Json): Json
    requires IsObject(v) && KeyCount(v) > 0
  {
    Lines(v)[0]
  }

  /** The synthetic sample `{[parent]: '', [field]: ''}` a junction's columns come from;
      the two names collapse into one member when they are equal. */
  function PairSample(parent: string, field: string): (s: Json)
    ensures s.JObj?
  {
    if parent == field then JObj([(parent, JStr(""))])
    else JObj([(parent, JStr("")), (field, JStr(""))])
  }

  lemma PairColumns(parent: string, field: string)
    ensures Columns(PairSample(parent, field).fields) == if parent == field then [parent] else [parent, field]
  {
  }

  /** Header lines are only appended, and rows and keys are untouched, by discovery. */
  ghost predicate Keeps(t: Table, t': Table) {
    && t'.objKey == t.objKey
    && t'.includedKeys == t.includedKeys
    && t'.rows == t.rows
    && t.headerLines <= t'.headerLines
  }

  /** What discovery may do to the registry: append names, register unwritten tables keyed by a
      candidate, register (or re-register, emptied) junctions; never write a data row. */
  ghost predicate Extends(st: State, st': State) {
    && Valid(st')
    && st.names <= st'.names
    && (forall n :: n in st.baseFiles ==> n in st'.baseFiles && Keeps(st.baseFiles[n], st'.baseFiles[n]))
    && (forall n :: n in st'.baseFiles && n !in st.baseFiles ==>
          && st'.baseFiles[n].objKey in FixedPromotableKeys
          && st'.baseFiles[n].includedKeys == {}
          && st'.baseFiles[n].rows == [])
    && (forall j :: j in st.junctionFiles ==>
          && j in st'.junctionFiles
          && (st'.junctionFiles[j].rows == st.junctionFiles[j].rows || st'.junctionFiles[j].rows == []))
  }

  /** Tables outside `except` whose column order is fixed keep it and write no further header. */
  ghost predicate OrdersKept(st: State, st': State, except: set<string>) {
    forall n :: n in st.baseFiles && n !in except && st.baseFiles[n].order != [] ==>
      && n in st'.baseFiles
      && st'.baseFiles[n].order == st.baseFiles[n].order
      && st'.baseFiles[n].headerLines == st.baseFiles[n].headerLines
  }

  /** Registers child table `field` keyed by `childKey` and junction `<parent>_<field>`. */
  function Register(st: State, parent: string, field: string, childKey: string): (st': State)
    requires Valid(st) && field !in st.baseFiles && childKey in FixedPromotableKeys
    ensures Valid(st') && st'.baseFiles == st.baseFiles[field := EmptyTable(childKey)]
    ensures st'.names == st.names + [field]
    ensures st'.junctionFiles == st.junctionFiles[JunctionName(parent, field) := EmptyJunction]
  {
    State(
      st.names + [field],
      st.baseFiles[field := EmptyTable(childKey)],
      st.junctionFiles[JunctionName(parent, field) := EmptyJunction])
  }

  /** `checkHeaders` on a junction with the synthetic pair sample: the sample has no object
      members, so discovery only fixes the order (when still empty) and writes its header. */
  function DiscoverJunction(st: State, jn: string, parent: string, field: string): (st': State)
    requires jn in st.junctionFiles
    ensures st'.names == st.names && st'.baseFiles == st.baseFiles
    ensures st'.junctionFiles.Keys == st.junctionFiles.Keys
    ensures st'.junctionFiles[jn].rows == st.junctionFiles[jn].rows
    ensures st'.junctionFiles[jn].order != []
    ensures st.junctionFiles[jn].order == [] ==>
      && st'.junctionFiles[jn].order == Columns(PairSample(parent, field).fields)
      && st'.junctionFiles[jn].headerLines == st.junctionFiles[jn].headerLines + [st'.junctionFiles[jn].order]
    ensures st.junctionFiles[jn].order != [] ==> st' == st
    ensures forall j :: j in st.junctionFiles && j != jn ==> st'.junctionFiles[j] == st.junctionFiles[j]
  {
    var junction := st.junctionFiles[jn];
    if junction.order != [] then st
    else
      var cols := Columns(PairSample(parent, field).fields);
      PairColumns(parent, field);
      st.(junctionFiles := st.junctionFiles[jn := junction.(order := cols, headerLines := junction.headerLines + [cols])])
  }

  /** Fixes table `name`'s column order to `cols` and writes the header line listing it. */
  function SetOrder(st: State, name: string, cols: seq<string>): (st': State)
    requires name in st.baseFiles
    ensures st'.names == st.names && st'.junctionFiles == st.junctionFiles
    ensures st'.baseFiles.Keys == st.baseFiles.Keys
    ensures st'.baseFiles[name].order == cols
    ensures st'.baseFiles[name].headerLines == st.baseFiles[name].headerLines + [cols]
    ensures forall n :: n in st.baseFiles && n != name ==> st'.baseFiles[n] == st.baseFiles[n]
  {
    var t := st.baseFiles[name];
    st.(baseFiles := st.baseFiles[name := t.(order := cols, headerLines := t.headerLines + [cols])])
  }

  /** The filter's verdict on one member: kept as a column unless its value is an array or object. */
  function Keep(kept: seq<string>, key: string, value: Json): seq<string> {
    if IsObject(value) then kept else kept + [key]
  }

  /** `checkHeaders(sample, baseFiles[name])`: discovery runs only while the table's order is empty. */
  function Discover(st: State, sample: Json, name: string): (r: Run)
    requires Valid(st) && name in st.baseFiles && sample.JObj?
    ensures Valid(r.st) && st.baseFiles.Keys <= r.st.baseFiles.Keys
    decreases Size(sample), 2
  {
    if st.baseFiles[name].order != [] then Run(st, None)
    else DiscoverFields(st, sample, name, 0, [])
  }

  /** The `filter` over the sample's members from member `i` on; `kept` holds the columns so far.
      When every member is classified, the kept names become the order and the header. */
  function DiscoverFields(st: State, sample: Json, name: string, i: nat, kept: seq<string>): (r: Run)
    requires Valid(st) && name in st.baseFiles && sample.JObj? && i <= |sample.fields|
    ensures Valid(r.st) && st.baseFiles.Keys <= r.st.baseFiles.Keys
    decreases Size(sample), 1, |sample.fields| - i
  {
    if i == |sample.fields| then Run(SetOrder(st, name, kept), None)
    else
      var key := sample.fields[i].0;
      var value := sample.fields[i].1;
      MemberSmaller(sample, i);
      var r := PromoteField(st, name, key, value);
      if r.fault.Some? then r
      else DiscoverFields(r.st, sample, name, i + 1, Keep(kept, key, value))
  }

  /** The side effects of classifying member `key` of table `parent`'s sample: only a
      non-empty array or object whose nested sample defines a candidate key is promoted. */
  function PromoteField(st: State, parent: string, key: string, value: Json): (r: Run)
    requires Valid(st) && parent in st.baseFiles
    ensures Valid(r.st) && st.baseFiles.Keys <= r.st.baseFiles.Keys
    decreases Size(value), 4
  {
    if !(IsObject(value) && KeyCount(value) > 0) then Run(st, None)
    else if Sample(value).JNull? then Run(st, Some(NullSample(key)))
    else
      match FindKey(Sample(value))
      case None => Run(st, None)
      case Some(childKey) => Promote(st, parent, key, value, childKey)
  }

  /** Promotion proper: registers the child table and its junction when `key` is new, then
      discovers the child table from the nested sample and the junction from the pair sample. */
  function Promote(st: State, parent: string, key: string, value: Json, childKey: string): (r: Run)
    requires Valid(st) && parent in st.baseFiles && IsObject(value) && KeyCount(value) > 0
    requires FindKey(Sample(value)) == Some(childKey)
    ensures Valid(r.st) && st.baseFiles.Keys <= r.st.baseFiles.Keys
    decreases Size(value), 3
  {
    var st1 := if key in st.baseFiles then st else Register(st, parent, key, childKey);
    LineSmaller(value, 0);
    var r := Discover(st1, Sample(value), key);
    if r.fault.Some? then r
    else
      var jn := JunctionName(parent, key);
      if jn !in r.st.junctionFiles then Run(r.st, Some(MissingJunction(jn)))
      else Run(DiscoverJunction(r.st, jn, parent, key), None)
  }
}
