/** Parsed JSON values as the normaliser sees them, and JavaScript's property read on them. */
module JsonValues {

  datatype Option<T> = None | Some(value: T)

  /** A parsed JSON value. Object members keep their insertion order, which fixes column order.
      Numbers are integers in this model. */
  datatype Json =
    | JNull
    | JBool(b: bool)
    | JNum(n: int)
    | JStr(s: string)
    | JArr(elems: seq<Json>)
    | JObj(fields: seq<(string, Json)>)

  /** `typeof v === 'object' && v !== null`: arrays and objects. */
  predicate IsObject(v: Json) {
    v.JArr? || v.JObj?
  }

  /** `Object.keys(v).length` for an array or an object. */
  function KeyCount(v: Json): nat
    requires IsObject(v)
  {
    if v.JArr? then |v.elems| else |v.fields|
  }

  /** The outcome of a property read `v[k]`: `undefined`, or a value. */
  datatype Slot = Undefined | Defined(value: Json)

  /** A slot holding an array or an object (a key the model does not compare). */
  predicate IsObjectSlot(s: Slot) {
    s.Defined? && IsObject(s.value)
  }

  /** The value of the first member named `k`. */
  function Lookup(fs: seq<(string, Json)>, k: string): Slot
  {
    if fs == [] then Undefined
    else if fs[0].0 == k then Defined(fs[0].1)
    else Lookup(fs[1..], k)
  }

  /** `Lookup` finds a member exactly when one is named `k`, and then the first such member. */
  lemma {:induction false} LookupFirst(fs: seq<(string, Json)>, k: string)
    ensures Lookup(fs, k).Defined? <==> exists i :: 0 <= i < |fs| && fs[i].0 == k
    ensures Lookup(fs, k).Defined? ==>
      exists i :: 0 <= i < |fs| && fs[i] == (k, Lookup(fs, k).value) && forall j :: 0 <= j < i ==> fs[j].0 != k
  {
    if fs != [] && fs[0].0 != k {
      LookupFirst(fs[1..], k);
      var r := Lookup(fs, k);
      assert forall i :: 0 < i < |fs| ==> fs[i] == fs[1..][i - 1];
      if r.Defined? {
        var i :| 0 <= i < |fs[1..]| && fs[1..][i] == (k, r.value) && forall j :: 0 <= j < i ==> fs[1..][j].0 != k;
        assert fs[i + 1] == (k, r.value);
      }
    }
  }

  /** `v[k]` for a name `k` that is not an array index: only an object member is found;
      arrays and primitives yield `undefined`. */
  function Get(v: Json, k: string): Slot {
    if v.JObj? then Lookup(v.fields, k) else Undefined
  }

  /** A member read is defined exactly on an object with a member of that name, and yields the
      first such member's value. */
  lemma GetFirst(v: Json, k: string)
    ensures Get(v, k).Defined? <==> v.JObj? && exists i :: 0 <= i < |v.fields| && v.fields[i].0 == k
    ensures Get(v, k).Defined? ==>
      exists i :: 0 <= i < |v.fields| && v.fields[i] == (k, Get(v, k).value) && forall j :: 0 <= j < i ==> v.fields[j].0 != k
  {
    if v.JObj? {
      LookupFirst(v.fields, k);
    }
  }

  /** The records a promoted field stands for: an array's elements, or a lone object. */
  function Lines(v: Json): seq<Json>
    requires IsObject(v)
  {
    if v.JArr? then v.elems else [v]
  }

  /** Number of constructors in a value; every proper sub-value is smaller. */
  function Size(v: Json): nat
  {
    match v
    case JArr(es) => 1 + SizeOfElems(es)
    case JObj(fs) => 1 + SizeOfFields(fs)
    case _ => 1
  }

  function SizeOfElems(es: seq<Json>): nat
  {
    if es == [] then 0 else Size(es[0]) + SizeOfElems(es[1..])
  }

  function SizeOfFields(fs: seq<(string, Json)>): nat
  {
    if fs == [] then 0
    else
      var x := fs[0].1;
      assert fs[0] in fs;
      assert fs[0] decreases to x;
      Size(x) + SizeOfFields(fs[1..])
  }

  lemma {:induction false} ElemSize(es: seq<Json>, m: nat)
    requires m < |es|
    ensures Size(es[m]) <= SizeOfElems(es)
  {
    if m > 0 {
      ElemSize(es[1..], m - 1);
    }
  }

  lemma {:induction false} FieldSize(fs: seq<(string, Json)>, i: nat)
    requires i < |fs|
    ensures Size(fs[i].1) <= SizeOfFields(fs)
  {
    if i > 0 {
      FieldSize(fs[1..], i - 1);
    }
  }

  /** A member value is smaller than the object holding it. */
  lemma MemberSmaller(v: Json, i: nat)
    requires v.JObj? && i < |v.fields|
    ensures Size(v.fields[i].1) < Size(v)
  {
    FieldSize(v.fields, i);
  }

  /** A value read from a record is smaller than the record. */
  lemma GetSmaller(v: Json, k: string)
    requires Get(v, k).Defined?
    ensures Size(Get(v, k).value) < Size(v)
  {
    LookupFirst(v.fields, k);
    var i :| 0 <= i < |v.fields| && v.fields[i] == (k, Get(v, k).value);
    MemberSmaller(v, i);
  }

  /** Each line of a promoted field is no larger than the field's value. */
  lemma LineSmaller(v: Json, m: nat)
    requires IsObject(v) && m < |Lines(v)|
    ensures Size(Lines(v)[m]) <= Size(v)
  {
    if v.JArr? {
      ElemSize(v.elems, m);
    }
  }

  /** The records member `k` of `v` stands for: its lines when it is an array or object,
      none otherwise. */
  function Items(v: Json, k: string): seq<Json> {
    var s := Get(v, k);
    if IsObjectSlot(s) then Lines(s.value) else []
  }

  /** Each of those records is smaller than `v`. */
  lemma ItemSmaller(v: Json, k: string, m: nat)
    requires m < |Items(v, k)|
    ensures Size(Items(v, k)[m]) < Size(v)
  {
    GetSmaller(v, k);
    LineSmaller(Get(v, k).value, m);
  }
}
