# StarView catalog adapter, modelled in Dafny

This project models `ProtobufAstronomicalSource`, the adapter of the StarView
sky map that turns one deserialized catalog record (an
`AstronomicalSourceProto`: names, a search location, and point, label and line
elements) into the primitives the renderer draws: point sources, text sources
and line sources, plus a lazily built list of names.

Modules, one per concept:

- `SourceProto` (`source_proto.dfy`): the record and its elements as immutable
  datatypes, and the catalog shape enumeration.
- `AndroidResources` (`android_resources.dfy`): integer string ids, the
  constant `R.string.missing_label` (`MissingLabel`, left uninterpreted) and
  `Resources.getString` (a function field of `Resources`, also uninterpreted).
- `Render` (`render.dfy`): geocentric coordinates, point shapes and the three
  primitive kinds. `GeocentricCoordinates.getInstance` is a parameter of type
  `CoordinatesFactory`.
- `ProtobufAstronomicalSource` (`protobuf_astronomical_source.dfy`): the
  shape table, `toInt`, `processStringIds`, the constructor, `getNames`,
  `getSearchLocation`, `getPoints`, `getLabels`, `getLines` and `getCoords`.
  The Java object is the value `Source`; its `names` cache is an `Option`
  field, and `GetNames` returns the names together with the object after the
  call.
- `SourceProperties` (`source_properties.dfy`): lemmas that relate several
  operations.

Two behaviours of the code are modelled as written:

- The constructor assigns the result of `processStringIds` to its parameter,
  not to the field (lines 75 and 79). The object therefore keeps the record
  unprocessed, and every getter reads it. Names come only from the record's
  integer name ids. A record that carries its names as textual ids alone gives
  no names (`TextOnlyNamesYieldNoNames`). Keeping the processed record would
  have added one missing-label name per textual id
  (`ProcessedRecordAddsMissingNames`) and changed nothing else
  (`ProcessingLeavesPrimitivesUnchanged`).
- No string id is resolved. The Javadoc of `processStringIds` (lines 82-86)
  says the integer ids are precalculated from the textual ones, but `toInt`
  returns `R.string.missing_label` for every argument. `getLabels` reads a
  label's integer id only for a log message and never uses it for the text,
  which is always the missing-label string. The model follows the code.

## Model

| member | source | states |
|---|---|---|
| `ProtobufAstronomicalSource.LookupShape` | app/src/main/java/com/google/android/stardroid/source/proto/ProtobufAstronomicalSource.java:52-66 | the lookup is absent (null) exactly for a shape the table does not list; a star becomes a circle; any other listed shape becomes the point shape of the same name |
| `ProtobufAstronomicalSource.ShapeMapDomain` | app/src/main/java/com/google/android/stardroid/source/proto/ProtobufAstronomicalSource.java:55-66 | the table's keys are exactly the ten listed catalog shapes |
| `ProtobufAstronomicalSource.ShapeMapNotInjective` | app/src/main/java/com/google/android/stardroid/source/proto/ProtobufAstronomicalSource.java:56-57 | two distinct catalog shapes share one point shape, so the table is not injective |
| `ProtobufAstronomicalSource.ShapeMapValues` | app/src/main/java/com/google/android/stardroid/source/proto/ProtobufAstronomicalSource.java:56-65 | the table's images are exactly the nine point shapes it names, one fewer than its ten keys because star and circle share the circle |
| `ProtobufAstronomicalSource.ToIntIgnoresItsArgument` | app/src/main/java/com/google/android/stardroid/source/proto/ProtobufAstronomicalSource.java:99-102 | `toInt` gives the same id, the missing label, for any two textual ids |
| `ProtobufAstronomicalSource.AddNameIntIds` | app/src/main/java/com/google/android/stardroid/source/proto/ProtobufAstronomicalSource.java:89-91 | the existing integer ids are kept as a prefix, followed by one missing-label id per textual id |
| `ProtobufAstronomicalSource.SetLabelIntIds` | app/src/main/java/com/google/android/stardroid/source/proto/ProtobufAstronomicalSource.java:92-94 | the label count is kept, and each label differs from its original only in having the missing-label integer id |
| `ProtobufAstronomicalSource.ProcessStringIds` | app/src/main/java/com/google/android/stardroid/source/proto/ProtobufAstronomicalSource.java:87-97 | the name ids grow by exactly the number of textual name ids, all new ones being the missing label; every label gets the missing-label id; nothing else in the record changes |
| `ProtobufAstronomicalSource.New` | app/src/main/java/com/google/android/stardroid/source/proto/ProtobufAstronomicalSource.java:74-80 | the object keeps the record as given, not the processed one, together with the resources and an empty names cache |
| `ProtobufAstronomicalSource.LookUpNames` | app/src/main/java/com/google/android/stardroid/source/proto/ProtobufAstronomicalSource.java:107-110 | one name per id, in order, each the resource string for that id |
| `ProtobufAstronomicalSource.GetNames` | app/src/main/java/com/google/android/stardroid/source/proto/ProtobufAstronomicalSource.java:105-113 | a filled cache is returned unchanged with the object unchanged; otherwise one name per integer name id of the stored record, in order; afterwards the cache holds the returned list |
| `ProtobufAstronomicalSource.GetSearchLocation` | app/src/main/java/com/google/android/stardroid/source/proto/ProtobufAstronomicalSource.java:116-118 | the stored record's search location passed through the coordinates factory |
| `ProtobufAstronomicalSource.ToPoints` | app/src/main/java/com/google/android/stardroid/source/proto/ProtobufAstronomicalSource.java:125-130 | one point per element in order, with converted location, copied colour and size, and the looked-up shape |
| `ProtobufAstronomicalSource.GetPoints` | app/src/main/java/com/google/android/stardroid/source/proto/ProtobufAstronomicalSource.java:121-131 | one point per point element of the stored record, in order, coordinates from its location, colour and size copied, shape from the table; empty for no elements |
| `ProtobufAstronomicalSource.ToTexts` | app/src/main/java/com/google/android/stardroid/source/proto/ProtobufAstronomicalSource.java:138-145 | one text source per element in order, reading the missing-label string and copying colour, offset and font size |
| `ProtobufAstronomicalSource.GetLabels` | app/src/main/java/com/google/android/stardroid/source/proto/ProtobufAstronomicalSource.java:134-147 | one text source per label element, in order; colour, offset and font size copied; the text is the missing-label string whatever the ids; empty for no elements |
| `ProtobufAstronomicalSource.ToVertices` | app/src/main/java/com/google/android/stardroid/source/proto/ProtobufAstronomicalSource.java:156-160 | one converted vertex per record vertex, in order |
| `ProtobufAstronomicalSource.ToLines` | app/src/main/java/com/google/android/stardroid/source/proto/ProtobufAstronomicalSource.java:154-163 | one line source per element in order, with colour, converted vertices and width |
| `ProtobufAstronomicalSource.GetLines` | app/src/main/java/com/google/android/stardroid/source/proto/ProtobufAstronomicalSource.java:150-164 | one line per line element, in order, keeping colour and width, with as many vertices as the element, each its vertex converted, in order; empty for no elements |
| `SourceProperties.GetNamesIdempotent` | app/src/main/java/com/google/android/stardroid/source/proto/ProtobufAstronomicalSource.java:105-113 | calling `getNames` on the object a call left behind returns the identical list and leaves that object unchanged |
| `SourceProperties.GetNamesKeepsCacheConsistent` | app/src/main/java/com/google/android/stardroid/source/proto/ProtobufAstronomicalSource.java:105-113 | on an object whose cache, if filled, matches its record, `getNames` returns the looked-up names, keeps the cache matching, and leaves record and resources alone |
| `SourceProperties.NewIsCacheConsistent` | app/src/main/java/com/google/android/stardroid/source/proto/ProtobufAstronomicalSource.java:74-80 | a new object's cache is consistent with its record |
| `SourceProperties.RepeatedGetNames` | app/src/main/java/com/google/android/stardroid/source/proto/ProtobufAstronomicalSource.java:105-113 | after any positive number of `getNames` calls on a new object, the cache holds the names of the unprocessed record's integer ids and the record is unchanged |
| `SourceProperties.TextOnlyNamesYieldNoNames` | app/src/main/java/com/google/android/stardroid/source/proto/ProtobufAstronomicalSource.java:74-113 | a record without integer name ids gives an empty names list, whatever its textual ids |
| `SourceProperties.ProcessedRecordAddsMissingNames` | app/src/main/java/com/google/android/stardroid/source/proto/ProtobufAstronomicalSource.java:87-113 | names read from the processed record would be the kept record's names followed by one missing-label string per textual name id |
| `SourceProperties.ProcessingLeavesPrimitivesUnchanged` | app/src/main/java/com/google/android/stardroid/source/proto/ProtobufAstronomicalSource.java:87-164 | points, labels, lines and search location read from the processed record equal those read from the kept one |
| `SourceProperties.LabelTextIgnoresIds` | app/src/main/java/com/google/android/stardroid/source/proto/ProtobufAstronomicalSource.java:139-143 | a label element's text source does not depend on its textual or integer id |
| `SourceProperties.ToLinesAppend` | app/src/main/java/com/google/android/stardroid/source/proto/ProtobufAstronomicalSource.java:154-163 | converting concatenated line elements gives the concatenated line sources, so order is preserved |

## Left out

- `MainActivity`, `secondFragment` and `thirdFragment`: Android fragment, navigation and WebView plumbing with no data transformation.
- `GeocentricCoordinates.getInstance`: its trigonometry is floating-point platform code. It is the parameter `instance`, and the model only says that coordinates pass through it (`GetCoords`, which has no contract of its own).
- `Resources.getString` and the value of `R.string.missing_label`: Android resource lookup, left uninterpreted.
- Floating-point fields (right ascension, declination, offset, line width) are `real`. The adapter only copies them, so no rounding is involved.
- The catalog `Shape` schema is not part of this model. Its ten table values are modelled, and `Unlisted` stands for any value outside the table.
- Protocol-buffer builders, serialization, and the difference between an unset optional field and its default value: generated code that is not part of this model.
- `Log.d` calls: logging only.
- The `synchronized` modifier on `getNames`: the cache is modelled sequentially.
- Object identity: `getNames` returns the same `ArrayList` on every call, and `Collections.emptyList()` differs from an empty `ArrayList` only in being immutable. Both are modelled as equal values.
- `ProtobufAstronomicalSource.GetNames`: two behaviours of the Java cache are not modelled. First, `names` is set to an empty list before the loop that calls `getString`; if that call throws for an unknown id, the partly filled list stays cached and every later call returns it. Here `getString` is total, so a lookup cannot fail. Second, the returned `ArrayList` is the cache itself, so a caller that changes it changes what later calls return. Here the cache is an immutable sequence. `SourceProperties.GetNamesIdempotent` and `SourceProperties.RepeatedGetNames` therefore hold only when no lookup throws and no caller changes the returned list.
- `Render.PointShape`: the point-shape enumeration is not part of this model. It is cut down to the nine shapes the table uses as images. If the real enumeration has more constants, they are absent here; `ProtobufAstronomicalSource.ShapeMapValues` is a statement about the table's images, not about that enumeration.
