# cytomine_utils: annotation upload, term lookup, image lookup and backup grouping

A Dafny model of the logic in `cytomine_utils/_utils.py`, a thin layer over the
Cytomine client library:

- **Upload of GeoJSON annotations** (`upload_annotations`). The image is looked up
  by file name and the top-level object must be a `FeatureCollection`. Then each
  feature is handled in input order. Its geometry kind must be `LineString` or
  `Polygon`, and an empty coordinate array raises `IndexError` at the numpy
  indexing of line 269. Its y axis is flipped against the image height. A feature
  whose repaired shape is invalid is skipped. Otherwise the feature saves one annotation,
  then a term link when it has a `"name"` property, then one property record per
  key. A `"name"` that is not a string raises at `.lower()`, and an unknown term
  name raises KeyError; either ends the upload with the annotation already saved. The Cytomine saves are
  appends to the log of a `Store` object. The geometry library is a function
  parameter `repair` that gives `is_valid` and `.wkt`, and nothing is assumed
  about it.
- **Term mapping and lookup** (`get_term_id_mapping`, `get_term_by_name`). The
  `{name: id}` maps of all ontologies are merged left to right, and a missing
  name raises KeyError.
- **Image lookup** (`get_image_by_name` and the same filter in
  `upload_annotations`). It returns the first image whose file name's last
  `/`-segment is the query, and raises StopIteration when there is none.
- **Backup grouping** (the loop of `backup_annotations`). Annotations are filed
  under `Path(filename).name` of their image, in iteration order.

Files: `wrappers.dfy` (Option, Result), `geometry.dfy` (the axis flip),
`images.dfy`, `terms.dfy`, `upload.dfy`, `backup.dfy`.

Remote fetches are inputs of the model:
- `get_project` gives a `Project`;
- `get_images_of_project` gives a sequence of `Image`;
- `get_ontologies` gives a sequence of `Ontology`;
- `get_current_user().id` gives an integer;
- `get_image_by_id(...).filename` gives a function from image id to file name.

Points of the code's behaviour that are easy to misread:
- The geometry kind is checked inside the loop, feature by feature. A feature with
  an unsupported kind therefore raises only after the earlier features have been
  saved (`RunStopsAt`, `GeometryChecksAbort`).
- The image lookup runs before the `FeatureCollection` check. A missing image
  therefore wins over a wrong top-level type (`UploadTrace`).
- The flip is `abs(y - height)`, not `height - y`. The two agree only for
  `0 <= y <= height` (`FlipInsideImage`). The height is `dimensions[1]`.
- The function returns nothing and keeps no report. Skipped features are visible
  only as the absence of records (`RunSkipsInvalid`, `RunCounts`).
- The error raised carries no feature index: the source's `AssertionError` and
  `AttributeError` have none. `KeyError` carries the missing key.

## Model

| member | source | states |
|---|---|---|
| Geometry.FlipY | cytomine_utils/_utils.py:268-269 | the flipped y is never negative and is `y - height` or `height - y` |
| Geometry.FlipPoints | cytomine_utils/_utils.py:267-269 | the flip keeps the number of vertices and every x coordinate, and each y becomes that vertex's flipped y |
| Geometry.FlipInsideImage | cytomine_utils/_utils.py:268-269 | for `0 <= y <= height` the flip is `height - y` and stays in `[0, height]` |
| Geometry.FlipTwice | cytomine_utils/_utils.py:268-269 | for a positive height, flipping twice returns y if and only if `0 <= y <= height` |
| Geometry.FlipPointsTwice | cytomine_utils/_utils.py:267-269 | a coordinate array inside the image stays inside it, and flipping it twice gives it back |
| Geometry.SquareExample | cytomine_utils/_utils.py:269 | the closed square (10,10)-(20,20) of an 800-pixel-high image flips to y = 790 and 780 |
| Images.LastSegment | cytomine_utils/_utils.py:157 | `split("/")[-1]` contains no `/` and is no longer than the file name |
| Images.LastSegmentIsSuffix | cytomine_utils/_utils.py:157 | the last segment ends the file name and is either all of it or preceded by `/` |
| Images.PathName | cytomine_utils/_utils.py:339 | `Path(filename).name` contains no `/`, is never `.`, and equals the last segment whenever that is neither empty nor `.` |
| Images.PathNameCollapses | cytomine_utils/_utils.py:339 | a trailing `/` or `/.` does not change the path name, and the empty path and `.` have the empty name; with `PathName`'s ensures this fixes the name of every path |
| Images.TrailingSlashDropped | cytomine_utils/_utils.py:339 | appending `/` to a path keeps its name |
| Images.TrailingDotDropped | cytomine_utils/_utils.py:339 | appending `/.` to a path keeps its name |
| Images.TrailingSlashNames | cytomine_utils/_utils.py:339 | for `slides/a.svs/` the last segment is empty while the path name is `a.svs` |
| Images.NamedBy | cytomine_utils/_utils.py:157 | the lookup's filter: the file name's last `/`-segment equals the query (its meaning is stated by `LastSegment` and `LastSegmentIsSuffix`) |
| Images.FirstNamed | cytomine_utils/_utils.py:156-158 | the position found is a matching image with no match before it, and none is found only when no image matches |
| Images.ImageByName | cytomine_utils/_utils.py:156-158 | the result is the first image whose last segment is the query; StopIteration exactly when no image matches |
| Terms.ChildMap | cytomine_utils/_utils.py:180 | one ontology's `{name: id}` comprehension; its keys and ids are stated by `ChildMapKeys` and `ChildMapLastWins` |
| Terms.TermMap | cytomine_utils/_utils.py:178-181 | the left-to-right `|=` merge of the ontologies' maps; its keys and ids are stated by `TermMapKeys` and `TermMapLastOntologyWins`, and `TermIdMapping` is proved equal to it |
| Terms.ChildMapKeys | cytomine_utils/_utils.py:180 | the keys of an ontology's map are exactly its children's names |
| Terms.ChildMapLastWins | cytomine_utils/_utils.py:180 | within one ontology, a name maps to the id of its last child of that name |
| Terms.TermMapKeys | cytomine_utils/_utils.py:178-181 | a string is a key of the merged map if and only if some ontology has a term of that name |
| Terms.TermMapLastOntologyWins | cytomine_utils/_utils.py:178-181 | a name takes its id from the last ontology that has it |
| Terms.TermIdMapping | cytomine_utils/_utils.py:173-181 | the loop of `|=` merges yields the merged map, whose keys are exactly the ontologies' names |
| Terms.GetTermByName | cytomine_utils/_utils.py:184-193 | succeeds exactly when some ontology has the name, with the merged map's id; otherwise KeyError of the name |
| Upload.AppendKeepsValid | cytomine_utils/_utils.py:275-287 | appending keeps the log well formed: annotation ids increase and every term link or property points to an annotation saved before it |
| Upload.Store.SaveAnnotation | cytomine_utils/_utils.py:275-277 | appends one annotation record under a fresh id and advances the next id |
| Upload.Store.SaveTermLink | cytomine_utils/_utils.py:280-283 | appends one term link for a saved annotation and changes nothing else |
| Upload.Store.SaveProperty | cytomine_utils/_utils.py:286-287 | appends one property record for a saved annotation and changes nothing else |
| Upload.Supported | cytomine_utils/_utils.py:266 | the accepted geometry kinds, `LineString` and `Polygon`; `GeometryChecksAbort` states that any other kind raises before anything is saved |
| Upload.Shape | cytomine_utils/_utils.py:267-270 | the repaired shape of the y-flipped coordinates; the flip is stated by `FlipPoints`, and what follows from its validity by `RunSkipsInvalid` and `EmittedRecords` |
| Upload.Lookup | cytomine_utils/_utils.py:279 | no value exactly when no entry has the key; otherwise the value of an entry with that key |
| Upload.Lower | cytomine_utils/_utils.py:281 | lowercasing keeps the length, maps each ASCII capital to the letter 32 code points above it and leaves every other character alone |
| Upload.LowerIsIdempotent | cytomine_utils/_utils.py:281 | the lowercased name has no upper-case ASCII letter and lowercasing it again changes nothing |
| Upload.TermFor | cytomine_utils/_utils.py:279-281 | the term of a feature's `"name"`, resolved through the merged map after lowercasing; what it yields is stated by `EmittedRecords`, `EmittedIff`, `NameNotTextAborts` and `UnknownTermAborts` |
| Upload.PropertyRecords | cytomine_utils/_utils.py:285-287 | one property record per entry, in entry order, each owned by the annotation and carrying that entry's key and value |
| Upload.FeatureStep | cytomine_utils/_utils.py:265-287 | what one feature does: skip, save, or save and raise; stated by `GeometryChecksAbort`, `EmittedRecords`, `EmittedIff`, `UnnamedFeatureRecords`, `NameNotTextAborts`, `UnknownTermAborts` and `StepCounts`, and `UploadFeature` is proved to perform it |
| Upload.Run | cytomine_utils/_utils.py:264-287 | the loop over the features; stated by `RunAfterFailure`, `RunSkipsInvalid`, `RunExtends`, `RunStopsAt` and `RunCounts`, and `UploadFeatures` is proved to perform it |
| Upload.UploadTrace | cytomine_utils/_utils.py:258-264 | a missing image raises StopIteration before anything is saved; a top-level type other than `FeatureCollection` raises before any feature is handled, and once the image is found that exception is the wrong-type one |
| Upload.RunAfterFailure | cytomine_utils/_utils.py:264-287 | after an exception no later feature is attempted |
| Upload.RunSkipsInvalid | cytomine_utils/_utils.py:270-273 | a feature with an invalid repaired shape saves nothing and the run goes on as if it were absent |
| Upload.RunExtends | cytomine_utils/_utils.py:264-287 | records saved for earlier features stay, in front, whatever later features do |
| Upload.RunStopsAt | cytomine_utils/_utils.py:264-287 | the first raising feature ends the run with the earlier records plus what it saved itself |
| Upload.StepCounts | cytomine_utils/_utils.py:275-287 | an uploaded feature saves exactly one annotation; a raising feature saves at most one |
| Upload.RunCounts | cytomine_utils/_utils.py:264-287 | ids used equal annotations saved; with no exception, uploaded plus skipped features equal all features |
| Upload.EmittedRecords | cytomine_utils/_utils.py:275-287 | an uploaded feature saves one annotation of the image, project and `[user]`, then a term link if and only if it has `"name"`, linking the id the merged map gives the lowercased name, then one property per entry in order |
| Upload.EmittedIff | cytomine_utils/_utils.py:265-287 | a feature that passes the geometry checks is uploaded if and only if it has no `"name"`, or a text name whose lowercase some ontology has |
| Upload.UnnamedFeatureRecords | cytomine_utils/_utils.py:275-287 | a valid feature without `"name"` saves its annotation and its properties, and no term link |
| Upload.NameNotTextAborts | cytomine_utils/_utils.py:279-281 | a valid feature whose `"name"` is not text raises after saving only its annotation |
| Upload.GeometryChecksAbort | cytomine_utils/_utils.py:265-269 | an unsupported kind raises before anything is saved; a supported kind with no vertices raises `IndexError` before anything is saved; past both checks a raising feature has saved exactly one record |
| Upload.UnknownTermAborts | cytomine_utils/_utils.py:279-283 | a valid feature with a text name raises UnknownTerm if and only if no ontology has the lowercased name, having saved only its annotation |
| Upload.RunNext | cytomine_utils/_utils.py:264-287 | one loop iteration appends exactly what the feature saves and raises what it raises |
| Upload.SaveProperties | cytomine_utils/_utils.py:285-287 | appends the feature's property records in entry order |
| Upload.UploadFeature | cytomine_utils/_utils.py:265-287 | the loop body saves exactly the records of the feature's step and raises its exception |
| Upload.UploadFeatures | cytomine_utils/_utils.py:264-287 | the loop over the features grows the log by exactly the run's records, the next id by the run's annotations, and raises the run's exception |
| Upload.UploadAnnotations | cytomine_utils/_utils.py:239-287 | the store's log grows by exactly the upload's records, its next id by the annotations saved, and the exception raised is the upload's |
| Backup.ImageName | cytomine_utils/_utils.py:339 | the key an annotation is filed under, `Path(filename).name` of its image (stated by `PathName` and `PathNameCollapses`) |
| Backup.Grouped | cytomine_utils/_utils.py:336-352 | the dictionary after the loop; its contents are stated by `GroupedSelected`, `SelectedNonEmpty` and `GroupedTotal`, and `GroupByImage` is proved to build it |
| Backup.KeyOrder | cytomine_utils/_utils.py:340-341 | the dictionary's keys in insertion order; `KeyOrderIsKeys` states it holds each key once, `KeyOrderFirstMet` and `KeyOrderPrefix` that keys come in the order their image names are first met |
| Backup.GroupedSelected | cytomine_utils/_utils.py:336-352 | each image name's list holds exactly that image's annotations in iteration order; a name is a key exactly when its list is non-empty |
| Backup.SelectedNonEmpty | cytomine_utils/_utils.py:336-352 | an image's list is non-empty exactly when some annotation belongs to that image |
| Backup.KeyOrderIsKeys | cytomine_utils/_utils.py:340-341 | the insertion order lists every key exactly once and nothing else |
| Backup.KeyOrderPrefix | cytomine_utils/_utils.py:337-341 | the key order after any prefix of the annotations is a prefix of the final key order: keys are never reordered or removed |
| Backup.KeyOrderFirstMet | cytomine_utils/_utils.py:337-341 | an annotation appends its image name to the key order exactly when no earlier annotation is filed under that name, and otherwise leaves the order unchanged |
| Backup.SumSizesUpdate | cytomine_utils/_utils.py:344 | replacing one key's list changes the total by that list's change in length, and leaves it unchanged when the key is not counted |
| Backup.GroupedTotal | cytomine_utils/_utils.py:336-352 | the lists hold exactly as many entries as there are annotations |
| Backup.GroupByImage | cytomine_utils/_utils.py:336-352 | the loop builds the grouping: keys are the images met, each list is that image's annotations in order, keys are in insertion order (the order `KeyOrderFirstMet` and `KeyOrderPrefix` state), totals match |

## Left out

- Credentials and client construction (`get_client`, `connect`, `get_credentials`): file and network I/O.
- Remote fetches (`get_projects`, `get_project`, `get_storage`, `get_ontologies`, `get_images_of_project`, `get_all_images`, `get_*_by_id`, `get_current_user`): their results are inputs; looking up a project by name is not modelled.
- `upload_image`: a network upload; it also uses the undefined names `client` and `keys`.
- Shapely (`Polygon(coords).buffer(0)`, `is_valid`, `.wkt`): the parameter `repair`. The exceptions the `Polygon` constructor raises on too few vertices are not modelled.
- numpy: coordinates are a flat sequence of integer `(x, y)` pairs, which is what `coords[:, 0]` and `coords[:, 1]` select for a `LineString`; the `IndexError` of an empty array is modelled as `EmptyCoordinates`. Float coordinates and the nested rings of a GeoJSON `Polygon` are not modelled. For nested rings the same indexing would select vertices rather than axes.
- Missing GeoJSON keys (`type`, `features`, `geometry`, `properties`, `coordinates`) and `null` values: the datatypes always have a value for each, so neither can be expressed. The KeyErrors of missing keys are not modelled. Nor are the TypeErrors of `null`: `"geometry": null` raises at line 266 before anything is saved, and `"properties": null` raises at line 279 after the annotation has been saved.
- Images.PathName: POSIX paths are assumed. On Windows `Path` also splits on `\`, which the model does not.
- Property values: only scalars (text, integer, boolean, null) are modelled. `properties` is an ordered list of entries standing for a JSON object; for a dict its keys are distinct.
- Upload.Lower: lowercases ASCII letters only, while Python's `str.lower` maps all of Unicode.
- Upload.Store.SaveAnnotation: Cytomine assigns ids on the server; the model numbers annotations consecutively. Failures of the save calls (network, authentication, validation) are not modelled.
- Terms.GetTermByName: returns the term's id; the `get_term_by_id(...).fetch()` round trip is taken to return the term with that id.
- The `print` of a skipped feature's index (line 272).
- Upload.UploadTrace: the checks of lines 262 and 266 are `assert` statements, and the model takes them as always enabled; under `python -O` they are removed and a non-`FeatureCollection` document or an unsupported geometry kind passes unchecked (this also holds for `GeometryChecksAbort`).
- Geometry.FlipY: computed over unbounded integers; numpy's int64 subtraction and `abs` at line 269 wrap around for coordinates or heights beyond 2^63.
- In `backup_annotations`: the `annot.fetch()` call, the `eval(annot.to_json()...)` round trip (the record appended is the annotation value itself), and the `json.dump` to a file (lines 345, 354-355). `json` is never imported in `_utils.py`, so line 355 raises NameError after `open(backup_json, "w")` has already truncated the file; the model stops at the grouping.
- `_connect` in `cytomine_utils/__init__.py`: an asyncio and thread-pool timeout around `connect`.
- `docs/source/conf.py`: Sphinx configuration, with no logic.
