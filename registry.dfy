/** The table registry of the normaliser: entity tables (`baseFiles`), junction tables
    (`junctionFiles`), and the order in which entity tables were registered. */
module Registry {
  import opened JsonValues

  /** Candidate key fields for a promoted table, tried in this order. */
  const FixedPromotableKeys: seq<string> := ["id", "iso_3166_1", "iso_639_1"]

  /** One data line of a sink: the record's values for the table's columns, in column order. */
  type Row = seq<Slot>

  /** An entity table: its key field, the keys written so far, the frozen column order,
      the header lines written to its sink, and the data rows written to its sink.
      (`headers.all` is always the set of `order`, so it is empty exactly when `order` is.) */
  datatype Table = Table(
    objKey: string,
    includedKeys: set<Slot>,
    order: seq<string>,
    headerLines: seq<seq<string>>,
    rows: seq<Row>)

  /** A junction table: no key and no dedup set. */
  datatype Junction = Junction(order: seq<string>, headerLines: seq<seq<string>>, rows: seq<Row>)

  /** The registry: `names` lists the keys of `baseFiles` in insertion order. */
  datatype State = State(names: seq<string>, baseFiles: map<string, Table>, junctionFiles: map<string, Junction>)

  /** The ways the source stops with a TypeError, and the one input the model declines. */
  datatype Fault =
    | NullSample(field: string)      // an array field whose first element is null
    | MissingJunction(name: string)  // the junction for a parent/field pair was never registered
    | NullRecord                     // a null record written to an entity table
    | PrimitiveRecord                // a string, number or boolean written to an entity table
    | ObjectKey                      // a key value that is an array or object (compared by reference)

  /** A step's final state, and the fault it stopped with, if any. */
  datatype Run = Run(st: State, fault: Option<Fault>)

  function EmptyTable(objKey: string): Table {
    Table(objKey, {}, [], [], [])
  }

  const EmptyJunction: Junction := Junction([], [], [])

  /** Junction table name for field `field` promoted out of table `parent`. */
  function JunctionName(parent: string, field: string): string {
    parent + "_" + field
  }

  /** The registry is keyed by exactly the listed names, each listed once. */
  ghost predicate Valid(st: State) {
    && (forall n :: n in st.baseFiles <==> n in st.names)
    && (forall i, j :: 0 <= i < j < |st.names| ==> st.names[i] != st.names[j])
  }

  /** Every listed name has a table: what the write engine's loop over the names relies on. */
  ghost predicate Listed(st: State) {
    forall i :: 0 <= i < |st.names| ==> st.names[i] in st.baseFiles
  }

  lemma ValidListed(st: State)
    requires Valid(st)
    ensures Listed(st)
  {
  }

  /** `Listed` depends only on the names and on which tables exist. */
  lemma ListedKept(st: State, st': State)
    requires Listed(st) && st'.names == st.names && st'.baseFiles.Keys == st.baseFiles.Keys
    ensures Listed(st')
  {
  }

  /** Every entity table holds one row per key in its dedup set. */
  ghost predicate OneRowPerKey(st: State) {
    forall n :: n in st.baseFiles ==> |st.baseFiles[n].rows| == |st.baseFiles[n].includedKeys|
  }

  /** The registry a run starts from: movies and people keyed by `id`, cast and crew by
      `credit_id`, nothing discovered, nothing written, no junctions. */
  function Initial(): (st: State)
    ensures st.names == ["movies", "cast", "crew", "people"] && st.junctionFiles == map[]
    ensures st.baseFiles.Keys == {"movies", "cast", "crew", "people"}
  {
    State(
      ["movies", "cast", "crew", "people"],
      map[
        "movies" := EmptyTable("id"),
        "cast" := EmptyTable("credit_id"),
        "crew" := EmptyTable("credit_id"),
        "people" := EmptyTable("id")],
      map[])
  }

  lemma InitialValid()
    ensures Valid(Initial()) && OneRowPerKey(Initial())
    ensures Initial().baseFiles["movies"].objKey == "id" && Initial().baseFiles["people"].objKey == "id"
    ensures Initial().baseFiles["cast"].objKey == "credit_id" && Initial().baseFiles["crew"].objKey == "credit_id"
    ensures forall n :: n in Initial().baseFiles ==> Initial().baseFiles[n].order == [] && Initial().baseFiles[n].rows == []
  {
    var st := Initial();
    var names := st.names;
    assert names[0][0] == 'm' && names[1][1] == 'a' && names[2][1] == 'r' && names[3][0] == 'p';
    assert forall i, j :: 0 <= i < j < |names| ==> names[i] != names[j];
    assert forall n :: n in st.baseFiles ==> |st.baseFiles[n].rows| == 0 == |st.baseFiles[n].includedKeys|;
  }
}
