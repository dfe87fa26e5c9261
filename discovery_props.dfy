/** What schema discovery guarantees: the registry only grows, fixed column orders never
    change, the column order is the first sample's scalar members, and promotion registers a
    child table and its junction together. */
module DiscoveryProperties {
  import opened JsonValues
  import opened Registry
  import opened Discovery

  lemma ExtendsRefl(st: State)
    requires Valid(st)
    ensures Extends(st, st) && OrdersKept(st, st, {})
  {
  }

  lemma ExtendsTrans(a: State, b: State, c: State)
    requires Extends(a, b) && Extends(b, c)
    ensures Extends(a, c)
  {
  }

  lemma OrdersKeptTrans(a: State, b: State, c: State, e: set<string>)
    requires OrdersKept(a, b, {}) && OrdersKept(b, c, e)
    ensures OrdersKept(a, c, e)
  {
  }

  lemma RegisterExtends(st: State, parent: string, field: string, childKey: string)
    requires Valid(st) && field !in st.baseFiles && childKey in FixedPromotableKeys
    ensures Extends(st, Register(st, parent, field, childKey))
    ensures OrdersKept(st, Register(st, parent, field, childKey), {})
  {
  }

  lemma SetOrderExtends(st: State, name: string, cols: seq<string>)
    requires Valid(st) && name in st.baseFiles
    ensures Extends(st, SetOrder(st, name, cols)) && OrdersKept(st, SetOrder(st, name, cols), {name})
  {
    var st' := SetOrder(st, name, cols);
    assert Keeps(st.baseFiles[name], st'.baseFiles[name]);
    forall n | n in st.baseFiles
      ensures n in st'.baseFiles && Keeps(st.baseFiles[n], st'.baseFiles[n])
    {
    }
  }

  lemma DiscoverJunctionExtends(st: State, jn: string, parent: string, field: string)
    requires Valid(st) && jn in st.junctionFiles
    ensures Extends(st, DiscoverJunction(st, jn, parent, field))
    ensures OrdersKept(st, DiscoverJunction(st, jn, parent, field), {})
  {
    var st' := DiscoverJunction(st, jn, parent, field);
    forall n | n in st.baseFiles
      ensures n in st'.baseFiles && Keeps(st.baseFiles[n], st'.baseFiles[n])
    {
    }
    forall j | j in st.junctionFiles
      ensures j in st'.junctionFiles && st'.junctionFiles[j].rows == st.junctionFiles[j].rows
    {
    }
  }

  /** Discovery never writes a data row, keeps every registered table's key, only appends
      registry names, keys every new table by a candidate, and leaves every table whose order
      is already fixed (with its header) as it was. */
  lemma {:induction false} DiscoverExtends(st: State, sample: Json, name: string)
    requires Valid(st) && name in st.baseFiles && sample.JObj?
    ensures Extends(st, Discover(st, sample, name).st)
    ensures OrdersKept(st, Discover(st, sample, name).st, {})
    decreases Size(sample), 2
  {
    if st.baseFiles[name].order == [] {
      DiscoverFieldsExtends(st, sample, name, 0, []);
    } else {
      ExtendsRefl(st);
    }
  }

  lemma {:induction false} DiscoverFieldsExtends(st: State, sample: Json, name: string, i: nat, kept: seq<string>)
    requires Valid(st) && name in st.baseFiles && sample.JObj? && i <= |sample.fields|
    ensures Extends(st, DiscoverFields(st, sample, name, i, kept).st)
    ensures OrdersKept(st, DiscoverFields(st, sample, name, i, kept).st, {name})
    decreases Size(sample), 1, |sample.fields| - i
  {
    if i == |sample.fields| {
      SetOrderExtends(st, name, kept);
    } else {
      var key := sample.fields[i].0;
      var value := sample.fields[i].1;
      MemberSmaller(sample, i);
      PromoteFieldExtends(st, name, key, value);
      var r := PromoteField(st, name, key, value);
      if r.fault.None? {
        var kept' := Keep(kept, key, value);
        DiscoverFieldsExtends(r.st, sample, name, i + 1, kept');
        var r' := DiscoverFields(r.st, sample, name, i + 1, kept');
        assert DiscoverFields(st, sample, name, i, kept) == r';
        ExtendsTrans(st, r.st, r'.st);
        OrdersKeptTrans(st, r.st, r'.st, {name});
      } else {
        assert DiscoverFields(st, sample, name, i, kept) == r;
        assert OrdersKept(st, r.st, {});
      }
    }
  }

  lemma {:induction false} PromoteFieldExtends(st: State, parent: string, key: string, value: Json)
    requires Valid(st) && parent in st.baseFiles
    ensures Extends(st, PromoteField(st, parent, key, value).st)
    ensures OrdersKept(st, PromoteField(st, parent, key, value).st, {})
    decreases Size(value), 4
  {
    if IsObject(value) && KeyCount(value) > 0 && !Sample(value).JNull? && FindKey(Sample(value)).Some? {
      PromoteExtends(st, parent, key, value, FindKey(Sample(value)).value);
    } else {
      ExtendsRefl(st);
    }
  }

  lemma {:induction false} PromoteExtends(st: State, parent: string, key: string, value: Json, childKey: string)
    requires Valid(st) && parent in st.baseFiles && IsObject(value) && KeyCount(value) > 0
    requires FindKey(Sample(value)) == Some(childKey)
    ensures Extends(st, Promote(st, parent, key, value, childKey).st)
    ensures OrdersKept(st, Promote(st, parent, key, value, childKey).st, {})
    decreases Size(value), 3
  {
    var st1 := if key in st.baseFiles then st else Register(st, parent, key, childKey);
    if key in st.baseFiles {
      ExtendsRefl(st);
    } else {
      RegisterExtends(st, parent, key, childKey);
    }
    LineSmaller(value, 0);
    DiscoverExtends(st1, Sample(value), key);
    var r := Discover(st1, Sample(value), key);
    ExtendsTrans(st, st1, r.st);
    OrdersKeptTrans(st, st1, r.st, {});
    var jn := JunctionName(parent, key);
    if r.fault.None? && jn in r.st.junctionFiles {
      var st2 := DiscoverJunction(r.st, jn, parent, key);
      DiscoverJunctionExtends(r.st, jn, parent, key);
      ExtendsTrans(st, r.st, st2);
      OrdersKeptTrans(st, r.st, st2, {});
    }
  }

  /** Table `name`'s order is `cols`, and the last header line written lists `cols`. */
  ghost predicate FixedAs(st: State, name: string, cols: seq<string>) {
    && name in st.baseFiles
    && st.baseFiles[name].order == cols
    && |st.baseFiles[name].headerLines| > 0
    && st.baseFiles[name].headerLines[|st.baseFiles[name].headerLines| - 1] == cols
  }

  /** One step of the `filter`: member `i` is classified, then the rest follows. */
  lemma DiscoverFieldsStep(st: State, sample: Json, name: string, i: nat, kept: seq<string>)
    requires Valid(st) && name in st.baseFiles && sample.JObj? && i < |sample.fields|
    requires PromoteField(st, name, sample.fields[i].0, sample.fields[i].1).fault.None?
    ensures var r := PromoteField(st, name, sample.fields[i].0, sample.fields[i].1);
      DiscoverFields(st, sample, name, i, kept)
        == DiscoverFields(r.st, sample, name, i + 1, Keep(kept, sample.fields[i].0, sample.fields[i].1))
  {
  }

  /** Keeping member `i` and then the scalar members after it keeps the scalar members from `i` on. */
  lemma KeepColumns(kept: seq<string>, fs: seq<(string, Json)>, i: nat)
    requires i < |fs|
    ensures Keep(kept, fs[i].0, fs[i].1) + Columns(fs[i + 1..]) == kept + Columns(fs[i..])
  {
    ColumnsStep(fs, i);
  }

  /** The `filter` leaves as the order exactly the kept names followed by the scalar members
      from position `i` on, and writes that order as the header line. */
  lemma {:induction false} DiscoverFieldsColumns(st: State, sample: Json, name: string, i: nat, kept: seq<string>)
    requires Valid(st) && name in st.baseFiles && sample.JObj? && i <= |sample.fields|
    ensures DiscoverFields(st, sample, name, i, kept).fault.None? ==>
      FixedAs(DiscoverFields(st, sample, name, i, kept).st, name, kept + Columns(sample.fields[i..]))
    decreases |sample.fields| - i
  {
    if i == |sample.fields| {
      assert sample.fields[i..] == [];
      assert kept + Columns(sample.fields[i..]) == kept;
    } else {
      var key := sample.fields[i].0;
      var value := sample.fields[i].1;
      var r := PromoteField(st, name, key, value);
      if r.fault.None? {
        DiscoverFieldsStep(st, sample, name, i, kept);
        DiscoverFieldsColumns(r.st, sample, name, i + 1, Keep(kept, key, value));
        KeepColumns(kept, sample.fields, i);
      }
    }
  }

  /** The column order discovery fixes for an undiscovered table is the sample's scalar (and
      null) members in their own order, and the last header line written lists it. */
  lemma DiscoverColumns(st: State, sample: Json, name: string)
    requires Valid(st) && name in st.baseFiles && sample.JObj? && st.baseFiles[name].order == []
    ensures Discover(st, sample, name).fault.None? ==>
      FixedAs(Discover(st, sample, name).st, name, Columns(sample.fields))
  {
    DiscoverFieldsColumns(st, sample, name, 0, []);
    assert sample.fields[0..] == sample.fields;
  }

  /** Once a table's order is fixed, discovery with any later sample changes nothing at all:
      not the order, not the header sink, not either registry. */
  lemma DiscoverOnce(st: State, first: Json, later: Json, name: string)
    requires Valid(st) && name in st.baseFiles && first.JObj? && later.JObj?
    requires Discover(st, first, name).fault.None?
    requires st.baseFiles[name].order != [] || Columns(first.fields) != []
    ensures var st' := Discover(st, first, name).st;
      && st'.baseFiles[name].order == (if st.baseFiles[name].order != [] then st.baseFiles[name].order else Columns(first.fields))
      && Discover(st', later, name) == Run(st', None)
  {
    if st.baseFiles[name].order == [] {
      DiscoverColumns(st, first, name);
    }
  }

  /** A first sample without scalar members leaves the table undiscovered (after writing an
      empty header line), so the next sample is discovered afresh. */
  lemma EmptySampleRediscovers(st: State, first: Json, later: Json, name: string)
    requires Valid(st) && name in st.baseFiles && first.JObj? && later.JObj?
    requires st.baseFiles[name].order == [] && Columns(first.fields) == []
    requires Discover(st, first, name).fault.None?
    ensures var st' := Discover(st, first, name).st;
      && st'.baseFiles[name].order == []
      && |st'.baseFiles[name].headerLines| > 0
      && st'.baseFiles[name].headerLines[|st'.baseFiles[name].headerLines| - 1] == []
      && Discover(st', later, name) == DiscoverFields(st', later, name, 0, [])
  {
    DiscoverColumns(st, first, name);
  }

  /** A member that is a primitive, null, or an empty array or object is never promoted. */
  lemma ScalarNotPromoted(st: State, parent: string, key: string, value: Json)
    requires Valid(st) && parent in st.baseFiles
    requires !IsObject(value) || KeyCount(value) == 0
    ensures PromoteField(st, parent, key, value) == Run(st, None)
  {
  }

  /** A non-empty array or object whose nested sample defines none of the candidate keys is
      dropped: nothing is registered. Arrays of primitives always fall here. */
  lemma UnkeyedDropped(st: State, parent: string, key: string, value: Json)
    requires Valid(st) && parent in st.baseFiles && IsObject(value) && KeyCount(value) > 0
    requires !Sample(value).JNull?
    requires forall c :: c in FixedPromotableKeys ==> Get(Sample(value), c) == Undefined
    ensures PromoteField(st, parent, key, value) == Run(st, None)
  {
  }

  lemma PrimitiveArrayDropped(st: State, parent: string, key: string, es: seq<Json>)
    requires Valid(st) && parent in st.baseFiles && es != [] && !IsObject(es[0]) && !es[0].JNull?
    ensures PromoteField(st, parent, key, JArr(es)) == Run(st, None)
    ensures forall kept :: Keep(kept, key, JArr(es)) == kept
  {
    UnkeyedDropped(st, parent, key, JArr(es));
  }

  /** An array whose first element is null makes the key search read a property of null. */
  lemma NullFirstElementFails(st: State, parent: string, key: string, es: seq<Json>)
    requires Valid(st) && parent in st.baseFiles && es != [] && es[0].JNull?
    ensures PromoteField(st, parent, key, JArr(es)) == Run(st, Some(NullSample(key)))
  {
  }

  /** Promoting a new member registers, together, the child table keyed by the first candidate
      its nested sample defines (right after the names already registered) and the junction
      `<parent>_<key>`; the child's order is the nested sample's scalar members and the junction
      is discovered. */
  lemma PromoteNewField(st: State, parent: string, key: string, value: Json)
    requires Valid(st) && parent in st.baseFiles && key !in st.baseFiles
    requires IsObject(value) && KeyCount(value) > 0 && FindKey(Sample(value)).Some?
    ensures var r := PromoteField(st, parent, key, value);
      r.fault.None? ==>
        && st.names + [key] <= r.st.names
        && key in r.st.baseFiles
        && r.st.baseFiles[key].objKey == FindKey(Sample(value)).value
        && r.st.baseFiles[key].order == Columns(Sample(value).fields)
        && JunctionName(parent, key) in r.st.junctionFiles
        && r.st.junctionFiles[JunctionName(parent, key)].order != []
  {
    var childKey := FindKey(Sample(value)).value;
    var st1 := Register(st, parent, key, childKey);
    LineSmaller(value, 0);
    DiscoverExtends(st1, Sample(value), key);
    DiscoverColumns(st1, Sample(value), key);
    var r1 := Discover(st1, Sample(value), key);
    var jn := JunctionName(parent, key);
    if r1.fault.None? {
      assert jn in r1.st.junctionFiles;
      assert PromoteField(st, parent, key, value) == Run(DiscoverJunction(r1.st, jn, parent, key), None);
    }
  }

  /** A member whose name is already registered, with that table's columns fixed, keeps its key; if the junction for
      this parent was never registered, discovery stops on the missing junction. */
  lemma PromoteKnownFieldWithoutJunction(st: State, parent: string, key: string, value: Json)
    requires Valid(st) && parent in st.baseFiles && key in st.baseFiles && st.baseFiles[key].order != []
    requires IsObject(value) && KeyCount(value) > 0 && FindKey(Sample(value)).Some?
    requires JunctionName(parent, key) !in st.junctionFiles
    ensures PromoteField(st, parent, key, value) == Run(st, Some(MissingJunction(JunctionName(parent, key))))
  {
    assert Discover(st, Sample(value), key) == Run(st, None);
    assert Promote(st, parent, key, value, FindKey(Sample(value)).value)
      == Run(st, Some(MissingJunction(JunctionName(parent, key))));
  }
}
