# tmdb-csv normaliser, modelled in Dafny

`getTmdbData.mjs` turns the nested JSON records of The Movie Database (movie details,
cast and crew credits, people) into flat CSV files. Its core is a small in-memory
normaliser:

- a registry of entity tables (`baseFiles`). Each table has a key field (`objKey`), a
  dedup set of keys already written (`includedKeys`), a column order frozen by the first
  record, and a CSV sink;
- a registry of junction tables (`junctionFiles`), one per parent table and promoted field;
- `checkHeaders(data, table)`, which discovers a table's columns from its first record.
  Along the way it promotes every nested array or object whose sample carries one of the
  candidate keys `id`, `iso_3166_1`, `iso_639_1` into a table of its own, together with a
  junction table `<parent>_<field>`;
- `writeLine(data, table)`, which writes a record once per key. It projects the record
  onto the frozen columns, then writes every nested line into its promoted table, each
  followed by one junction row pairing the parent's key with the line's key.

The model keeps the source's shape. The module `Normalisers` has a class `Normaliser`
whose fields `names`, `baseFiles` and `junctionFiles` its methods update in place:
`CheckHeaders`, `Classify`, `PromoteNested`, `WriteLine`, `WriteField`,
`WriteLineWithPair` and `Ingest`. Each method is proved to end in exactly the state, and
stop with exactly the fault, that a pure specification function computes from the old
state:

- `Discovery.Discover`, `DiscoverFields`, `PromoteField` and `Promote` specify
  `checkHeaders`;
- `Writing.Write`, `WriteChildren`, `WriteLines` and `WriteItem` specify `writeLine`.

The properties the source relies on are proved as lemmas about those functions
(modules `DiscoveryProperties`, `WritingProperties`, `Ingestion`). These include:

- discovery happens once per table, once that table's columns are fixed;
- the columns are the first record's scalar members, in order;
- the promotion rules;
- first write wins, and writing twice changes nothing;
- each table keeps one row per key;
- each nested line that is flat (no array or object under a registered name) and has a plain key yields exactly one junction row, repeats included;
- a nested line whose key was already written yields exactly one junction row and nothing else, whatever it contains.

`Scenario` works one record through end to end: a movie with one genre, ingested into the
initial registry.

A CSV sink is modelled as the sequence of header lines and the sequence of data rows
written to it. A row is a sequence of `Slot`s (`undefined`, or a JSON value), in column
order. Where the source crashes with a `TypeError`, the model stops with a `Fault` and
keeps the state reached at that point:

- `NullSample`: an array whose first element is `null`;
- `MissingJunction`: a junction that was never registered;
- `NullRecord`: a `null` record written to a table;
- `PrimitiveRecord`: a string, number or boolean written to a table, on which the `in`
  operator throws.

`ObjectKey` is the one fault that stands for a declined input: a key value that is itself an
array or object. Records that are not objects are declined by a precondition instead
(see `Ingestion.Ingest` under Left out).

The model follows the code in four behaviours a reader might not expect:

- An array of primitives is dropped, not kept as a column. Its sample has no candidate
  key, and the `filter` drops every array or object (`UnkeyedDropped`,
  `PrimitiveArrayDropped`).
- `writeLine` recurses into every registered table whose name is a member of the record
  holding an array or object. This is not limited to the tables promoted from this
  record's own table (`Writing.WriteChildren`).
- A junction is registered only together with a new child table. A second parent
  promoting an already registered field name therefore crashes on the missing junction
  (`PromoteKnownFieldWithoutJunction`). A parent whose first record did not promote a field
  that another parent registered crashes the same way when `writeLine` reaches that field:
  the line is written to the child table, then the junction is missing
  (`WriteItemMissingJunction`). When the parent-and-field names collide, a
  junction is re-registered, emptied.
- Discovery is guarded by "the column set is empty", not by "discovered before". A first
  sample with no scalar member writes an empty header line, and the next record is
  discovered afresh (`EmptySampleRediscovers`).

## Model

| member | source | states |
|---|---|---|
| Registry.Initial | getTmdbData.mjs:65-95 | the run starts with tables movies (key `id`), cast, crew (key `credit_id`) and people (key `id`), in that order, which is the order `writeLine` visits them in, and no junctions |
| Registry.InitialValid | getTmdbData.mjs:65-95 | the initial registry lists each table once, nothing is discovered or written, and each key field is as declared |
| JsonValues.LookupFirst | getTmdbData.mjs:167 | a member read `v[k]` is defined exactly when some member is named `k`, and yields the first such member's value |
| JsonValues.GetFirst | getTmdbData.mjs:167 | `v[k]` is defined exactly when `v` is an object with a member named `k`, and yields the first such member's value; arrays and primitives yield `undefined` |
| Discovery.FirstDefined | getTmdbData.mjs:109-111 | the first candidate from position `i` on that the sample defines, with every earlier candidate undefined; none only if all are undefined |
| Discovery.FindKey | getTmdbData.mjs:109-111 | the promoted key is the first of `id`, `iso_3166_1`, `iso_639_1` the sample defines; there is none exactly when the sample defines none of them |
| Discovery.Columns | getTmdbData.mjs:100-152 | a name is a column exactly when some member with that name is not an array or object; never more columns than members |
| Discovery.ColumnsAppend | getTmdbData.mjs:100-152 | column selection respects member order: the columns of `a + b` are those of `a`, then those of `b` |
| Discovery.PairColumns | getTmdbData.mjs:146-149 | the junction's columns are `[parent, field]`, or `[parent]` when the two names are equal |
| Discovery.Register | getTmdbData.mjs:122-144 | a new child table (keyed by the candidate found, empty) is added at the end of the registry, and junction `<parent>_<field>` is registered empty |
| Discovery.DiscoverJunction | getTmdbData.mjs:146-159 | an undiscovered junction gets the pair sample's columns and exactly that header line; a discovered one is left as it was; rows, other junctions and the tables are untouched |
| Discovery.SetOrder | getTmdbData.mjs:153-159 | the table's order becomes the kept columns and exactly that header line is appended; nothing else changes |
| Discovery.Discover | getTmdbData.mjs:97-163 | discovery keeps the registry valid and never drops a table |
| Discovery.DiscoverFields | getTmdbData.mjs:100-159 | the `filter` keeps the registry valid and never drops a table |
| Discovery.PromoteField | getTmdbData.mjs:101-121 | classifying one member keeps the registry valid and never drops a table |
| Discovery.Promote | getTmdbData.mjs:122-149 | promotion keeps the registry valid and never drops a table |
| DiscoveryProperties.DiscoverExtends | getTmdbData.mjs:97-163 | discovery writes no data row, keeps every key field, only appends names, keys new tables by a candidate, and leaves fixed orders and their headers alone |
| DiscoveryProperties.DiscoverFieldsExtends | getTmdbData.mjs:100-159 | the same for the `filter` from member `i` on, with only the table being discovered allowed a new order |
| DiscoveryProperties.PromoteFieldExtends | getTmdbData.mjs:101-150 | the same for the classification of one member |
| DiscoveryProperties.PromoteExtends | getTmdbData.mjs:122-149 | the same for one promotion, including the nested discovery and the junction's |
| DiscoveryProperties.DiscoverFieldsColumns | getTmdbData.mjs:100-159 | the `filter` fixes as order the kept names followed by the scalar members from `i` on, and writes it as the last header line |
| DiscoveryProperties.DiscoverColumns | getTmdbData.mjs:97-159 | a table's order is the first sample's scalar members in member order, and the last header line lists it |
| DiscoveryProperties.DiscoverOnce | getTmdbData.mjs:98-162 | once the order is non-empty, any later sample changes nothing at all |
| DiscoveryProperties.EmptySampleRediscovers | getTmdbData.mjs:98-153 | a first sample without scalar members writes an empty header and leaves the table to be discovered again |
| DiscoveryProperties.ScalarNotPromoted | getTmdbData.mjs:101-102 | a primitive, `null`, or empty array or object is never promoted and changes nothing |
| DiscoveryProperties.UnkeyedDropped | getTmdbData.mjs:109-120 | a nested sample without any candidate key is skipped: nothing is registered |
| DiscoveryProperties.PrimitiveArrayDropped | getTmdbData.mjs:105-151 | an array of primitives is skipped, and the filter does not keep it as a column either |
| DiscoveryProperties.NullFirstElementFails | getTmdbData.mjs:105-111 | an array whose first element is `null` stops discovery when reading a property of `null` |
| DiscoveryProperties.PromoteNewField | getTmdbData.mjs:122-149 | promoting a new field appends its name, keys the table by the first candidate the sample defines, fixes its order to the sample's scalar members, and registers and discovers the junction |
| DiscoveryProperties.PromoteKnownFieldWithoutJunction | getTmdbData.mjs:122-148 | a field already registered by another parent, once that table's columns are fixed, finds no junction for this parent and stops there |
| Writing.Project | getTmdbData.mjs:172-177 | a row has one value per column, in column order: the record's member of that name, `undefined` when missing |
| Writing.Accept | getTmdbData.mjs:166-178 | the gate lets a record through into its own table only: no other table, no junction and no name changes |
| Writing.PairRow | getTmdbData.mjs:193-198 | a junction row has one value per junction column: the child key under the field's column, the parent key under the parent's (the child key wins when the names are equal), `undefined` elsewhere |
| Writing.AppendPair | getTmdbData.mjs:193-199 | writing a junction row touches that junction only |
| Writing.Write | getTmdbData.mjs:165-203 | writing never adds or drops a table or a name |
| Writing.WriteChildren | getTmdbData.mjs:180-202 | the same for the `forEach` over the registered names |
| Writing.WriteLines | getTmdbData.mjs:186-200 | the same for the `forEach` over a member's lines |
| Writing.WriteItem | getTmdbData.mjs:190-199 | the same for one line and its junction row |
| WritingProperties.AcceptFrame | getTmdbData.mjs:166-178 | the gate changes no schema, adds exactly the one new key to its table's dedup set and exactly one full-width row, and keeps one row per key |
| WritingProperties.AppendPairFrame | getTmdbData.mjs:193-199 | a junction row changes no schema and grows that junction by exactly one full-width row |
| WritingProperties.WriteFrame | getTmdbData.mjs:165-203 | writing never changes a schema (key fields, orders, headers, names), and only grows dedup sets, table rows and junction rows |
| WritingProperties.WriteChildrenFrame | getTmdbData.mjs:180-202 | the same for the `forEach` over the registered names |
| WritingProperties.WriteLinesFrame | getTmdbData.mjs:186-200 | the same for the `forEach` over a member's lines |
| WritingProperties.WriteItemFrame | getTmdbData.mjs:190-199 | the same for one line and its junction row |
| WritingProperties.WriteOneRowPerKey | getTmdbData.mjs:166-171 | every entity table keeps exactly one row per key in its dedup set, through the whole recursive write |
| WritingProperties.WriteChildrenOneRowPerKey | getTmdbData.mjs:180-202 | the same for the `forEach` over the registered names |
| WritingProperties.WriteLinesOneRowPerKey | getTmdbData.mjs:186-200 | the same for the `forEach` over a member's lines |
| WritingProperties.WriteItemOneRowPerKey | getTmdbData.mjs:190-199 | the same for one line |
| WritingProperties.WriteAccepted | getTmdbData.mjs:166-178 | a record with a new key adds the key, and its table's next row is the record projected on the unchanged order, whatever its lines do next |
| WritingProperties.WriteRecordsKey | getTmdbData.mjs:166-170 | a successful write leaves the record's plain key in the dedup set, under the same key field |
| WritingProperties.WriteTwice | getTmdbData.mjs:166-169 | writing the same record again changes nothing |
| WritingProperties.WriteChildrenFlat | getTmdbData.mjs:180-185 | a record with no array or object under a registered name recurses nowhere |
| WritingProperties.WriteFlat | getTmdbData.mjs:165-203 | such a record adds exactly its own row when its key is new, and nothing otherwise |
| WritingProperties.PairRows | getTmdbData.mjs:190-199 | one junction row per line, pairing the parent key with that line's key |
| WritingProperties.WriteItemFlat | getTmdbData.mjs:190-199 | a flat line appends exactly one pair row to the junction, whether or not it was new to its table |
| WritingProperties.WriteItemDuplicate | getTmdbData.mjs:166-199 | a line whose key its table already holds adds no row to any table, and exactly one pair row to the junction |
| WritingProperties.WriteItemMissingJunction | getTmdbData.mjs:166-199 | when this parent's junction for the field was never registered, a line that the child write accepts without a fault is written to the child table, then the write stops with the missing-junction fault in that state |
| WritingProperties.WriteLinesJunctionRows | getTmdbData.mjs:186-200 | writing a member's flat lines appends exactly one pair row per line, in line order, repeats included |
| Ingestion.Ingest | getTmdbData.mjs:225-226 | a record passed through `checkHeaders` then `writeLine` keeps the registry valid and never drops a table |
| Ingestion.IngestFirstRecord | getTmdbData.mjs:97-178 | the first record of a table fixes its columns to its scalar members and is written as exactly those values |
| Ingestion.ColumnsFrozen | getTmdbData.mjs:98-178 | a later record with a new key is written against the columns fixed before it |
| Ingestion.FirstWriteWins | getTmdbData.mjs:166-169 | once the table's columns are fixed, after a record went through, a later record with the same key value changes nothing |
| Ingestion.MissingKeysCollide | getTmdbData.mjs:166-170 | once the table's columns are fixed, records without the key field share the key `undefined`, so only the first of them is written |
| Ingestion.IngestOneRowPerKey | getTmdbData.mjs:97-203 | one row per key survives a whole ingest: discovery adds no row and starts new tables empty |
| Normalisers.Normaliser.constructor | getTmdbData.mjs:65-95 | the object starts as the initial registry |
| Normalisers.Normaliser.Ingest | getTmdbData.mjs:225-226 | one record in place: the state and fault are those of `Ingestion.Ingest` |
| Normalisers.Normaliser.CheckHeaders | getTmdbData.mjs:97-163 | the loop over the sample's members leaves exactly the state and fault of `Discover` |
| Normalisers.Normaliser.Classify | getTmdbData.mjs:101-121 | the `filter` callback leaves exactly the state and fault of `PromoteField` |
| Normalisers.Normaliser.PromoteNested | getTmdbData.mjs:122-149 | the registration and the two nested discoveries leave exactly the state and fault of `Promote` |
| Normalisers.Normaliser.WriteLine | getTmdbData.mjs:165-203 | the gate, the row and the loop over the names leave exactly the state and fault of `Write` |
| Normalisers.Normaliser.WriteField | getTmdbData.mjs:186-200 | the loop over a member's lines leaves exactly the state and fault of `WriteLines` |
| Normalisers.Normaliser.WriteLineWithPair | getTmdbData.mjs:190-199 | one line and its junction row leave exactly the state and fault of `WriteItem` |
| Scenario.GenreDiscovered | getTmdbData.mjs:97-159 | a genre `{id, name}` gives table `genres` the columns `id,name` |
| Scenario.AlphaDiscovered | getTmdbData.mjs:97-159 | the movie `{id, title, genres: [genre]}` fixes `movies` to `id,title` and promotes `genres` with junction `movies_genres` |
| Scenario.AlphaWritten | getTmdbData.mjs:165-203 | writing that movie adds one movie row, one genre row and one junction row |
| Scenario.AlphaMovie | getTmdbData.mjs:225-226 | from the initial registry: `movies` gets header `id,title` and row `1,Alpha`; `genres` (key `id`) gets header `id,name` and row `10,Action`; `movies_genres` gets header `movies,genres` and row `1,10` |

## Left out

- The CSV text itself (`Papa.unparse`, quoting, the trailing newline) is not modelled. A
  sink is the list of header lines and of rows of values.
- File handles are not modelled: `fs.openSync`, `fs.writeSync`, closing every file at
  the end, and the paths derived from the output directory. Entity tables and junctions
  keep their sinks in two separate maps, keyed by name. In the source an entity table
  named `a_b` and a junction `a_b` open the same file `a_b.csv`, so their lines would mix
  in one file. The model keeps them apart.
- Console logging is not modelled.
- The command-line parsing, the rate-limited `fetch` calls and the driver loops over
  pages, movies, credits and people are not modelled. `Ingestion.Ingest` is the pair of
  calls the driver makes for each record; `queryPerson`'s own `includedKeys` check is the
  write gate already modelled.
- Numbers are JSON numbers modelled as integers. Floating point, and JavaScript's key
  coercion of numbers to strings, are not modelled.
- Member names are looked up as plain names. Array indices, `length` and prototype
  properties (`nestedSample["id"]` on an array, `data["length"]` on a string) are treated
  as `undefined`. TMDB records do not use such names.
- Objects with two members of the same name are kept as given; reading takes the first.
  JSON parsing itself is not part of this model.
- Writing.Write: a key value that is an array or object is declined with `ObjectKey`.
  The source compares such keys by reference in a `Set`, so equal-looking keys are
  distinct there; the model does not capture reference identity.
- Writing.Write: records are written against `Listed` (every listed name has a table),
  the part of registry validity that writing relies on. Discovery's stronger `Valid` is
  kept by `Ingestion.Ingest`.
- Ingestion.Ingest: the record must be an object. `checkHeaders` on an array or a
  primitive record enumerates indices or characters, which the model does not capture.
  Every record the driver fetches is an object.
- Discovery.DiscoverFields: members are visited in the order they appear in the record.
  `Object.keys` lists integer-like names (`"0"`, `"2010"`) first, in ascending numeric
  order, before the others. The model does not reproduce that ordering, so for such names
  the column order differs.
- Writing.WriteChildren: the registered names are visited in registration order. For
  integer-like table names, JavaScript's `Object.keys(baseFiles)` would visit them first,
  so the order of child writes differs.
- Writing.Project: `Papa.unparse` is assumed to succeed and to project the record onto
  `columns`, with a missing member as an empty field. The library is not part of this
  model. A version that refuses an empty `columns` list, or a non-object record, would
  throw where the model writes a row (into a table whose order is empty, or before the
  `PrimitiveRecord` fault). One that writes an array record by position would write other
  values.
- DiscoveryProperties.EmptySampleRediscovers: depends on the same assumption, since the
  empty header line is produced by `Papa.unparse` with an empty `columns` list.
- Discovery.Discover: the source's `headers.all` is the set of `order`. It is modelled
  through `order` alone; the two are empty together.
