# fbksd sample transport, scene metadata and CLI model lookups in Dafny

This project models three small sequential pieces of the fbksd rendering
benchmark framework and proves properties of them.

- **SceneInfo** (`scene_info.dfy`, module `SceneMetadata`): the scene
  metadata store of libcore. It keeps four independent string-keyed maps,
  one each for `float`, `int64_t`, `bool` and `std::string`, with `set`,
  `get` and `has` per type, an `int` overload of `set` that widens into the
  int64 map, and `merged`, which overrides the receiver's entries with the
  argument's, map by map. The template parameter `T` is a `Kind`, and a
  value of type `T` is a `Value` of that kind.
- **SampleBuffer and SamplesPipe** (`samples_pipe.dfy`, module `Samples`):
  the renderer-side accessors documented in `SamplesPipe.h`. A buffer has
  one slot per random parameter and one per feature. Writes to a
  random parameter take effect only when the layout marks it OUTPUT, and
  they return the value left in the buffer. Feature writes always take
  effect and return the written value. A pipe holds the records of one
  tile, a position and a count of inserted samples. `getBuffer` hands out
  the record at the position with the client's input values, and `<<`
  stores the buffer's outputs there, counts the sample and advances.
- **CLI object model** (`cli_model.dfy`, module `CliModel`, with the
  filtering lemmas in `seqs.dfy`, module `Seqs`): `Technique.get_version`,
  `TechniqueVersion.has_result / get_result / get_results / get_name`, and
  the per-class `__nextId` counters of `fbksd_cli/model.py`.

`wrappers.dfy` holds `Option` and `Result`. `values.dfy` holds the scalar
types: `float` as its 32-bit IEEE-754 bit pattern, and `int64_t` and `int`
as bounded newtypes.

Modelling choices:

- The static layout state that `SampleBuffer::setLayout` and
  `SamplesPipe::setLayout` install is passed explicitly as a `Layout`. It
  holds the input/output mask of the random parameters, one entry per
  parameter, the number of features, and the table of numbered feature
  instances. A buffer's parameters and features are arrays indexed by
  the enumerator.
- The RandomParameter and Feature enumerations are opaque numbers.
  Instance `number` of a numbered feature is itself a feature of the
  enumeration (instance 1 of WORLD_X is WORLD_X_1). The layout's
  `instances` table says which one; a well-formed table maps instance 0
  of every feature to the feature itself.
- A tile record has the shape of a sample buffer. The position is a record
  index. How `seek(x, y)` turns a pixel into a position is not modelled, so
  `Seek` takes the computed position.
- `operator<<` keeps a record's INPUT random parameters and writes its
  OUTPUT parameters and its features from the buffer. The header keeps
  index tables only for input parameters, output parameters and output
  features (SamplesPipe.h:178-180).
- The header documents no behaviour for an insert or read outside the
  tile. The model therefore makes staying inside the tile a precondition
  of `GetBuffer`, `Seek` and `Insert`.
- Every tile record and every buffer has one slot per random parameter of
  the layout and one per feature. `Insert` is stated for records of any shape; the lemmas
  about what a record holds afterwards assume the layout's shape.
- Python `is` compares object identities. An identity is an `ObjectId`,
  and `None` is `Option.None`. So `get_results(None)` returns the results
  that have no scene, as the Python code does.
- A version records the name of its technique instead of a reference to
  the technique object, which breaks the object cycle. `get_name` on a
  version without a technique raises `AttributeError` in Python. Here it
  returns `Failure`.
- Every operation is a pure function or method on immutable values. So
  `get`, `has`, `merged` and the lookups leave their arguments unchanged by
  construction.

## Model

| member | source | states |
|---|---|---|
| `SceneMetadata.Set` | src/libcore/SceneInfo.cpp:15-18 | the value is found under `name` in the map of its own type; every other (type, name) entry, including `name` in the other three maps, is unchanged |
| `SceneMetadata.Get` | src/libcore/SceneInfo.cpp:19-26 | the result has the requested type; it is the stored value when the name is present and `T()` when it is absent |
| `SceneMetadata.Has` | src/libcore/SceneInfo.cpp:27-31 | true exactly when `name` is a key of the requested type's map |
| `SceneMetadata.SetInt` | src/libcore/SceneInfo.cpp:39-44 | an `int` lands in the int64 map with the same numeric value; all other entries are unchanged |
| `SceneMetadata.Merged` | src/libcore/SceneInfo.cpp:46-60 | for every type and name, an entry of the argument wins, otherwise the receiver's entry is kept; the names of each map are the union of both stores' names, so no other key appears |
| `SceneMetadata.OverrideEach` | src/libcore/SceneInfo.cpp:50-51 | the assignment loop over the argument's items yields the union of keys, the argument's value on every key it holds and the copy's value elsewhere |
| `SceneMetadata.MergedByAssignment` | src/libcore/SceneInfo.cpp:46-60 | copying the receiver and running the four assignment loops produces exactly the store `Merged` describes |
| `SceneMetadata.SetThenGet` | src/libcore/SceneInfo.cpp:15-31 | after `set(name, v)`, `get` of v's type returns v and `has` is true |
| `SceneMetadata.SetOverwrites` | src/libcore/SceneInfo.cpp:15-18 | a second `set` of the same type and name gives the same store as setting only the second value |
| `SceneMetadata.SetLeavesOtherKinds` | src/libcore/SceneInfo.cpp:33-36 | a `set` of one type leaves `get`, `has` and the names of every other type unchanged, even for the same name |
| `SceneMetadata.GetAbsentIsDefault` | src/libcore/SceneInfo.cpp:20-26 | `get` of an absent name returns 0.0f, 0, false or "" according to the type |
| `SceneMetadata.SetIntWidens` | src/libcore/SceneInfo.cpp:39-44 | the `int` overload is the int64 `set` of the widened value, and `get<int64_t>` then reads back the same number |
| `SceneMetadata.MergedIdentities` | src/libcore/SceneInfo.cpp:46-60 | merging with an empty store on either side, or a store with itself, returns an equal store |
| `SceneMetadata.MergedAssociative` | src/libcore/SceneInfo.cpp:46-60 | `(a.merged(b)).merged(c)` equals `a.merged(b.merged(c))` |
| `SceneMetadata.MergedSingleIsSet` | src/libcore/SceneInfo.cpp:46-60 | merging in a store holding a single entry is the same as `set` of that entry |
| `Samples.GetParameter` | include/fbksd/renderer/SamplesPipe.h:51-54 | reads the parameter's slot; writing the value read back with `set` leaves the buffer unchanged under every layout |
| `Samples.SetParameter` | include/fbksd/renderer/SamplesPipe.h:41-49 | for an OUTPUT parameter the slot now holds `v`; for an INPUT parameter the buffer is unchanged; the returned value is the one now in the slot; no other slot changes |
| `Samples.GetFeature` | include/fbksd/renderer/SamplesPipe.h:75-78 | reads the feature's slot; writing the value read back with `set` leaves the buffer unchanged |
| `Samples.SetFeature` | include/fbksd/renderer/SamplesPipe.h:56-61 | the feature slot holds `v`, `v` is returned, and no other slot changes |
| `Samples.SetNumberedFeature` | include/fbksd/renderer/SamplesPipe.h:63-73 | the feature that is instance `number` of `f` (WORLD_X_1 for number 1 of WORLD_X) holds `v`, `v` is returned, and no other slot changes |
| `Samples.SetParameterThenGet` | include/fbksd/renderer/SamplesPipe.h:41-54 | the value `set` returns equals what `get` reads afterwards: `v` for OUTPUT, the previous value for INPUT |
| `Samples.SetFeatureThenGet` | include/fbksd/renderer/SamplesPipe.h:75-78 | `get(f)` after `set(f, v)` returns `v` |
| `Samples.SetNumberedThenGet` | include/fbksd/renderer/SamplesPipe.h:63-78 | after a numbered write, `get` of the feature the instance names returns `v`, and `get` of every other feature is unchanged |
| `Samples.NumberZeroIsUnnumbered` | include/fbksd/renderer/SamplesPipe.h:63-73 | writing instance 0 of a feature is the same as writing the unnumbered feature |
| `Samples.Open` | include/fbksd/renderer/SamplesPipe.h:186-187 | a new pipe reports zero inserted samples, starts at the first record and keeps the tile's records |
| `Samples.Seek` | include/fbksd/renderer/SamplesPipe.h:133-147 | the position becomes the requested one; records and the inserted count are unchanged |
| `Samples.GetBuffer` | include/fbksd/renderer/SamplesPipe.h:154-160 | the buffer's INPUT random parameters hold the client's values in the record at the current position |
| `Samples.StoreOutputs` | include/fbksd/renderer/SamplesPipe.h:178-180 | for a record and a buffer of the layout's shape, the stored record keeps the record's INPUT parameters and takes the OUTPUT parameters and the features from the buffer |
| `Samples.Insert` | include/fbksd/renderer/SamplesPipe.h:162-166 | the inserted count grows by exactly one, the position advances by one, the record at the old position becomes the buffer stored over it, and no other record changes |
| `Samples.InsertStoresBuffer` | include/fbksd/renderer/SamplesPipe.h:162-166 | after `<<`, the record at the old position keeps its client inputs and holds the buffer's outputs and features, and the tile keeps the layout's shape |
| `Samples.InsertAll` | include/fbksd/renderer/SamplesPipe.h:144-152 | n inserts without a seek grow the count by n and advance the position by n |
| `Samples.InsertAllKeepsOthers` | include/fbksd/renderer/SamplesPipe.h:162-166 | consecutive inserts leave every record outside the filled range unchanged |
| `Samples.InsertAllFills` | include/fbksd/renderer/SamplesPipe.h:162-166 | after consecutive inserts, record position+k holds buffer k's outputs over its own client inputs |
| `Samples.FillFromOpen` | include/fbksd/renderer/SamplesPipe.h:98-104 | filling a new pipe in order counts one sample per record, ends at the end of the tile and gives every record its buffer's outputs |
| `Samples.ProducerStep` | include/fbksd/renderer/SamplesPipe.h:98-104 | getBuffer, set a random parameter, insert: the record then holds the value `set` returned, which is `v` for OUTPUT and the client's value for INPUT |
| `Samples.ProducerFeatureStep` | include/fbksd/renderer/SamplesPipe.h:98-104 | getBuffer, a numbered feature write, insert: `set` returns `v` and the record then holds `v` in the feature the instance names |
| `CliModel.GetVersion` | share/fbksd/python/fbksd_cli/model.py:26-30 | None exactly when no version has the tag; otherwise the first version in list order with that tag |
| `CliModel.HasResult` | share/fbksd/python/fbksd_cli/model.py:59-60 | true exactly when some result has `result.scene is scene` and `result.spp == spp` |
| `CliModel.GetResult` | share/fbksd/python/fbksd_cli/model.py:62-67 | None exactly when `has_result` is false; otherwise the first matching result in list order |
| `CliModel.GetResults` | share/fbksd/python/fbksd_cli/model.py:69-74 | the appending loop computes the filtered list: every element is on the scene, every result on the scene is in it, and nothing else is |
| `CliModel.GetName` | share/fbksd/python/fbksd_cli/model.py:76-77 | fails exactly when there is no technique; otherwise the name splits into the technique name, a dash and the tag |
| `CliModel.GetNameDeterminesTag` | share/fbksd/python/fbksd_cli/model.py:76-77 | two versions of the same technique with the same name have the same tag |
| `CliModel.GetNameSplitsAtFirstDash` | share/fbksd/python/fbksd_cli/model.py:76-77 | when the technique name holds no dash, the name's first dash separates the technique name from the tag |
| `CliModel.InitialCounters` | share/fbksd/python/fbksd_cli/model.py:33-34 | every class's counter starts at 1 |
| `CliModel.Construct` | share/fbksd/python/fbksd_cli/model.py:36-38 | the new object gets its class's next id, that counter goes up by one, and every other class's counter is unchanged |
| `CliModel.ConstructAll` | share/fbksd/python/fbksd_cli/model.py:80-93 | a sequence of constructions hands out one id per construction |
| `CliModel.ConstructAllIds` | share/fbksd/python/fbksd_cli/model.py:109-114 | the i-th construction gets its class's starting id plus the number of earlier constructions of that class |
| `CliModel.ConstructAllCounters` | share/fbksd/python/fbksd_cli/model.py:109-114 | after a sequence of constructions each class's counter has advanced by the number of constructions of that class |
| `CliModel.IdsCountUpPerClass` | share/fbksd/python/fbksd_cli/model.py:33-46 | from the initial counters each class numbers its objects 1, 2, 3, ... independently of the other classes, so later objects of a class get strictly larger ids |
| `Seqs.Filter` | share/fbksd/python/fbksd_cli/model.py:63 | the list comprehension keeps only matching elements, keeps every matching element, and adds nothing |
| `Seqs.FilterAppend` | share/fbksd/python/fbksd_cli/model.py:70-73 | filtering a concatenation is the concatenation of the filtered parts, which is what the appending loop relies on |
| `Seqs.FilterIsSubsequence` | share/fbksd/python/fbksd_cli/model.py:69-74 | the filtered list is an order-preserving subsequence of the input |
| `Seqs.FilterMultiplicity` | share/fbksd/python/fbksd_cli/model.py:69-74 | each matching element occurs in the filtered list as often as in the input, and no other element occurs |
| `Seqs.FilterHead` | share/fbksd/python/fbksd_cli/model.py:63-67 | the filtered list is non-empty exactly when some element matches, and its head is the first match |

## Left out

- The `SamplesPipe` constructor's blocking acquisition of a tile, the destructor's release of it, the move constructor and the `TilePool` / `RenderingServer` friends (SamplesPipe.h:113-131, 174-175): concurrency and inter-process plumbing whose code is not part of this model. `Open` starts from the tile's records.
- The `numSamples` constructor argument (`m_informedNumSamples`): no documented operation reads it.
- `seek(int x, int y)`'s pixel-to-position arithmetic, the `sm_*Indices` offset tables, `sm_sampleSize` and `setLayout` (SamplesPipe.h:172-180): that code is not part of this model. `Seek` takes the computed position.
- The `SampleBuffer()` constructor: its initial slot values are not documented.
- Float semantics: floats are bit patterns that are only stored and copied.
- The inserted-sample counter is an unbounded `nat`. `size_t` / `int64_t` overflow would need 2^63 inserts.
- `Samples.Insert`: its requires excludes an insert at a position outside the tile, because the header documents no behaviour for it.
- `Samples.Seek`: its requires excludes a position outside the tile, because the header documents no behaviour for it.
- `Samples.SetNumberedFeature`: its requires excludes a (feature, number) pair that names no feature of the enumeration, because the header documents no behaviour for it.
- The contents of the numbered-instance table and NUM_FEATURES: samples.h is not part of this model, so the `Layout` holds them as parameters.
- `Samples.GetBuffer`: its requires excludes a read at a position outside the tile, because the header documents no behaviour for it; and it states only the INPUT parameters of the returned buffer, because the header promises nothing about its other slots.
- `uuid.uuid4()`, `os.path.join` in `Scene.get_reference`, the external `IQAMetric.command`, the empty `PersistentState`, and the one-line name accessors `Scene.get_name` / `ConfigScene.get_name`: foreign library calls or no behaviour.
- The fields of the Python classes that the modelled lookups do not read (paths, weights, metrics, exec times, regions). Python's dynamic typing is narrowed to strings for names and tags and integers for spp.
