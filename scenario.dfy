/** A worked run: one movie with one genre ingested into the initial registry. */
module Scenario {
  import opened JsonValues
  import opened Registry
  import opened Discovery
  import opened DiscoveryProperties
  import opened Writing
  import opened WritingProperties
  import opened Ingestion

  const Genre: Json := JObj([("id", JNum(10)), ("name", JStr("Action"))])
  const Genres: Json := JArr([Genre])
  const Alpha: Json := JObj([("id", JNum(1)), ("title", JStr("Alpha")), ("genres", Genres)])

  /** A scalar member is kept as a column and changes nothing else. */
  lemma ScalarKept(st: State, sample: Json, name: string, i: nat, kept: seq<string>)
    requires Valid(st) && name in st.baseFiles && sample.JObj? && i < |sample.fields|
    requires !IsObject(sample.fields[i].1)
    ensures DiscoverFields(st, sample, name, i, kept) == DiscoverFields(st, sample, name, i + 1, kept + [sample.fields[i].0])
  {
    ScalarNotPromoted(st, name, sample.fields[i].0, sample.fields[i].1);
    DiscoverFieldsStep(st, sample, name, i, kept);
  }

  /** The genre sample has two scalar members, which become the columns of `genres`. */
  lemma GenreDiscovered(st: State)
    requires Valid(st) && "genres" in st.baseFiles && st.baseFiles["genres"].order == []
    ensures Discover(st, Genre, "genres") == Run(SetOrder(st, "genres", ["id", "name"]), None)
  {
    ScalarKept(st, Genre, "genres", 0, []);
    assert [] + [Genre.fields[0].0] == ["id"];
    ScalarKept(st, Genre, "genres", 1, ["id"]);
    assert ["id"] + [Genre.fields[1].0] == ["id", "name"];
    assert DiscoverFields(st, Genre, "genres", 2, ["id", "name"]) == Run(SetOrder(st, "genres", ["id", "name"]), None);
  }

  lemma MoviesGenres()
    ensures JunctionName("movies", "genres") == "movies_genres"
  {
  }

  /** The state discovery of `Alpha` ends in, from a registry where `genres` is unknown. */
  function AlphaSchema(st: State): (st': State)
    requires Valid(st) && "movies" in st.baseFiles && "genres" !in st.baseFiles
  {
    var st1 := Register(st, "movies", "genres", "id");
    MoviesGenres();
    var st2 := SetOrder(st1, "genres", ["id", "name"]);
    var st3 := DiscoverJunction(st2, "movies_genres", "movies", "genres");
    SetOrder(st3, "movies", ["id", "title"])
  }

  lemma GenresPromoted(st: State)
    requires Valid(st) && "movies" in st.baseFiles && "genres" !in st.baseFiles
    ensures var st2 := SetOrder(Register(st, "movies", "genres", "id"), "genres", ["id", "name"]);
      && "movies_genres" in st2.junctionFiles
      && PromoteField(st, "movies", "genres", Genres) == Run(DiscoverJunction(st2, "movies_genres", "movies", "genres"), None)
  {
    MoviesGenres();
    assert Sample(Genres) == Genre;
    assert FindKey(Genre) == Some("id");
    var st1 := Register(st, "movies", "genres", "id");
    GenreDiscovered(st1);
  }

  /** The movie's third member, `genres`, is promoted and the movie's order fixed. */
  lemma AlphaGenres(st: State)
    requires Valid(st) && "movies" in st.baseFiles && "genres" !in st.baseFiles
    ensures DiscoverFields(st, Alpha, "movies", 2, ["id", "title"]) == Run(AlphaSchema(st), None)
  {
    GenresPromoted(st);
    DiscoverFieldsStep(st, Alpha, "movies", 2, ["id", "title"]);
    assert Keep(["id", "title"], "genres", Genres) == ["id", "title"];
    var st3 := PromoteField(st, "movies", "genres", Genres).st;
    assert DiscoverFields(st3, Alpha, "movies", 3, ["id", "title"]) == Run(SetOrder(st3, "movies", ["id", "title"]), None);
  }

  /** Discovery of the movie: `id` and `title` kept, `genres` promoted, the order `id,title` fixed. */
  lemma AlphaDiscovered(st: State)
    requires Valid(st) && "movies" in st.baseFiles && "genres" !in st.baseFiles && st.baseFiles["movies"].order == []
    ensures Discover(st, Alpha, "movies") == Run(AlphaSchema(st), None)
  {
    ScalarKept(st, Alpha, "movies", 0, []);
    assert [] + [Alpha.fields[0].0] == ["id"];
    ScalarKept(st, Alpha, "movies", 1, ["id"]);
    assert ["id"] + [Alpha.fields[1].0] == ["id", "title"];
    AlphaGenres(st);
  }

  /** The state writing `Alpha` ends in: one `movies` row, one `genres` row, one junction row. */
  function AlphaRows(st: State): (st': State)
    requires "movies" in st.baseFiles && "genres" in st.baseFiles && "movies_genres" in st.junctionFiles
  {
    var st5 := Accept(st, "movies", Alpha, Defined(JNum(1)));
    var st6 := Accept(st5, "genres", Genre, Defined(JNum(10)));
    AppendPair(st6, "movies_genres", "movies", Defined(JNum(1)), "genres", Defined(JNum(10)))
  }

  /** No member of a genre is an array or object. */
  lemma GenreFlat(st: State)
    ensures Flat(st, Genre)
  {
    forall k ensures !IsObjectSlot(Get(Genre, k)) {
      LookupFirst(Genre.fields, k);
    }
  }

  /** The movie's only array or object member is `genres`. */
  lemma AlphaMembers()
    ensures Get(Alpha, "genres") == Defined(Genres)
    ensures forall k :: k != "genres" ==> !IsObjectSlot(Get(Alpha, k))
  {
    LookupFirst(Alpha.fields, "genres");
    assert Alpha.fields[2].0 == "genres";
    forall k | k != "genres" ensures !IsObjectSlot(Get(Alpha, k)) {
      LookupFirst(Alpha.fields, k);
    }
  }

  /** A name whose member is not an array or object is passed over. */
  lemma SkipName(st: State, data: Json, name: string, parentKey: Slot, j: nat)
    requires Listed(st) && name in st.baseFiles && data.JObj? && j < |st.names|
    requires !IsObjectSlot(Get(data, st.names[j]))
    ensures WriteChildren(st, data, name, parentKey, j) == WriteChildren(st, data, name, parentKey, j + 1)
  {
  }

  /** Where every table but `genres` is unknown to the movie and both keys are new, writing the
      movie adds its row, the genre's row and the pair. */
  ghost predicate ReadyForAlpha(st: State) {
    && Listed(st) && st.names == ["movies", "cast", "crew", "people", "genres"]
    && "movies" in st.baseFiles && "genres" in st.baseFiles && "movies_genres" in st.junctionFiles
    && st.baseFiles["movies"].objKey == "id" && st.baseFiles["genres"].objKey == "id"
    && Defined(JNum(1)) !in st.baseFiles["movies"].includedKeys
    && Defined(JNum(10)) !in st.baseFiles["genres"].includedKeys
  }

  lemma GenreWritten(st: State)
    requires ReadyForAlpha(st)
    ensures var st5 := Accept(st, "movies", Alpha, Defined(JNum(1)));
      WriteLines(st5, Alpha, "movies", Defined(JNum(1)), "genres", 0) == Run(AlphaRows(st), None)
  {
    var st5 := Accept(st, "movies", Alpha, Defined(JNum(1)));
    AlphaMembers();
    assert Items(Alpha, "genres") == [Genre];
    GenreFlat(st5);
    WriteFlat(st5, Genre, "genres");
    MoviesGenres();
    WriteLinesStep(st5, Alpha, "movies", Defined(JNum(1)), "genres", 0);
  }

  /** The four base tables have no member in the movie. */
  lemma AlphaSkips(st: State, k: Slot)
    requires Listed(st) && st.names == ["movies", "cast", "crew", "people", "genres"] && "movies" in st.baseFiles
    ensures WriteChildren(st, Alpha, "movies", k, 0) == WriteChildren(st, Alpha, "movies", k, 4)
  {
    AlphaMembers();
    SkipName(st, Alpha, "movies", k, 0);
    SkipName(st, Alpha, "movies", k, 1);
    SkipName(st, Alpha, "movies", k, 2);
    SkipName(st, Alpha, "movies", k, 3);
  }

  lemma AlphaWritten(st: State)
    requires ReadyForAlpha(st)
    ensures Write(st, Alpha, "movies") == Run(AlphaRows(st), None)
  {
    var k := Defined(JNum(1));
    var st5 := Accept(st, "movies", Alpha, k);
    assert KeyOf(st, Alpha, "movies") == k;
    GenreWritten(st);
    AlphaSkips(st5, k);
  }

  /** What discovery of the movie does to the registry: `genres` listed and keyed by `id`, the
      three orders fixed, each with its one header line. */
  lemma AlphaSchemaShape(st: State)
    requires Valid(st) && "movies" in st.baseFiles && "genres" !in st.baseFiles
    ensures var st', t := AlphaSchema(st), st.baseFiles["movies"];
      && st'.names == st.names + ["genres"]
      && "movies" in st'.baseFiles && "genres" in st'.baseFiles && "movies_genres" in st'.junctionFiles
      && st'.baseFiles["movies"] == t.(order := ["id", "title"], headerLines := t.headerLines + [["id", "title"]])
      && st'.baseFiles["genres"] == Table("id", {}, ["id", "name"], [["id", "name"]], [])
      && st'.junctionFiles["movies_genres"] == Junction(["movies", "genres"], [["movies", "genres"]], [])
  {
    MoviesGenres();
    PairColumns("movies", "genres");
  }

  /** The schema discovery leaves in the initial registry. */
  lemma InitialSchema()
    ensures Valid(Initial()) && "movies" in Initial().baseFiles && "genres" !in Initial().baseFiles
    ensures var st := AlphaSchema(Initial());
      && ReadyForAlpha(st)
      && st.baseFiles["movies"].order == ["id", "title"] && st.baseFiles["movies"].headerLines == [["id", "title"]]
      && st.baseFiles["movies"].rows == [] && st.baseFiles["genres"].rows == []
      && st.baseFiles["genres"].order == ["id", "name"] && st.baseFiles["genres"].headerLines == [["id", "name"]]
      && st.junctionFiles["movies_genres"].order == ["movies", "genres"]
      && st.junctionFiles["movies_genres"].headerLines == [["movies", "genres"]]
      && st.junctionFiles["movies_genres"].rows == []
  {
    InitialValid();
    var st := AlphaSchema(Initial());
    AlphaSchemaShape(Initial());
    assert Initial().baseFiles["movies"] == EmptyTable("id");
    ValidListed(st);
  }

  /** What writing the movie does to each of the three files it touches. */
  lemma AlphaRowsShape(st: State)
    requires ReadyForAlpha(st)
    ensures var st', k1, k10 := AlphaRows(st), Defined(JNum(1)), Defined(JNum(10));
      var t, g, p := st.baseFiles["movies"], st.baseFiles["genres"], st.junctionFiles["movies_genres"];
      && st'.names == st.names && "genres" in st'.baseFiles && "movies_genres" in st'.junctionFiles
      && st'.baseFiles["movies"] == t.(includedKeys := t.includedKeys + {k1}, rows := t.rows + [Project(Alpha, t.order)])
      && st'.baseFiles["genres"] == g.(includedKeys := g.includedKeys + {k10}, rows := g.rows + [Project(Genre, g.order)])
      && st'.junctionFiles["movies_genres"] == p.(rows := p.rows + [PairRow(p.order, "movies", k1, "genres", k10)])
  {
  }

  /** Discovery then the write, from the initial registry. */
  lemma AlphaIngested()
    ensures Valid(Initial()) && "movies" in Initial().baseFiles && "genres" !in Initial().baseFiles
    ensures ReadyForAlpha(AlphaSchema(Initial()))
    ensures Ingest(Initial(), Alpha, "movies") == Run(AlphaRows(AlphaSchema(Initial())), None)
  {
    InitialValid();
    AlphaDiscovered(Initial());
    InitialSchema();
    AlphaWritten(AlphaSchema(Initial()));
  }

  lemma AlphaValues()
    ensures Project(Alpha, ["id", "title"]) == [Defined(JNum(1)), Defined(JStr("Alpha"))]
    ensures Project(Genre, ["id", "name"]) == [Defined(JNum(10)), Defined(JStr("Action"))]
    ensures PairRow(["movies", "genres"], "movies", Defined(JNum(1)), "genres", Defined(JNum(10))) == [Defined(JNum(1)), Defined(JNum(10))]
  {
    LookupFirst(Alpha.fields, "title");
    LookupFirst(Genre.fields, "name");
  }

  /** The three files after the write, from any registry shaped like the one discovery leaves. */
  ghost predicate AlphaFiles(st': State) {
    && st'.names == ["movies", "cast", "crew", "people", "genres"]
    && "movies" in st'.baseFiles && "genres" in st'.baseFiles && "movies_genres" in st'.junctionFiles
    && st'.baseFiles["movies"].headerLines == [["id", "title"]]
    && st'.baseFiles["movies"].rows == [[Defined(JNum(1)), Defined(JStr("Alpha"))]]
    && st'.baseFiles["genres"].objKey == "id"
    && st'.baseFiles["genres"].headerLines == [["id", "name"]]
    && st'.baseFiles["genres"].rows == [[Defined(JNum(10)), Defined(JStr("Action"))]]
    && st'.junctionFiles["movies_genres"].headerLines == [["movies", "genres"]]
    && st'.junctionFiles["movies_genres"].rows == [[Defined(JNum(1)), Defined(JNum(10))]]
  }

  lemma AlphaRowsFiles(st: State)
    requires ReadyForAlpha(st)
    requires st.baseFiles["movies"].order == ["id", "title"] && st.baseFiles["movies"].headerLines == [["id", "title"]]
    requires st.baseFiles["movies"].rows == [] && st.baseFiles["genres"].rows == []
    requires st.baseFiles["genres"].order == ["id", "name"] && st.baseFiles["genres"].headerLines == [["id", "name"]]
    requires st.junctionFiles["movies_genres"].order == ["movies", "genres"]
    requires st.junctionFiles["movies_genres"].headerLines == [["movies", "genres"]]
    requires st.junctionFiles["movies_genres"].rows == []
    ensures AlphaFiles(AlphaRows(st))
  {
    AlphaRowsShape(st);
    AlphaValues();
  }

  /** The worked run end to end: the movie becomes `movies` row `1,Alpha` under header
      `id,title`; the genre is promoted to table `genres` (keyed by `id`) with row `10,Action`
      under header `id,name`; and junction `movies_genres` gets header `movies,genres` and the
      row `1,10`. */
  lemma AlphaMovie()
    ensures Valid(Initial()) && "movies" in Initial().baseFiles && "genres" !in Initial().baseFiles
    ensures Ingest(Initial(), Alpha, "movies").fault.None?
    ensures AlphaFiles(Ingest(Initial(), Alpha, "movies").st)
  {
    AlphaIngested();
    InitialSchema();
    AlphaRowsFiles(AlphaSchema(Initial()));
  }
}
