# Taxi-fare feature pipeline, modelled in Dafny

This project models the feature pipeline of a New York taxi-fare
prediction repository. The pipeline has five steps:

- **Loading** (`src/load_data.py`). Raw train and test CSV files become
  parquet files of trips. Train files carry a `fare_amount` column directly
  after `key`. The first line is a header except in train parts other than
  the first. An optional row limit applies. Only the first 19 characters of
  `pickup_datetime` are parsed. Each row's index label is the first 16 hex
  digits of the md5 digest of its key.
- **Hexagons and locations** (`src/features/coordinates.py`). Every trip
  whose four coordinates are inside the world box gets an h3 cell for each
  of its pickup and dropoff points. Every point cell is then expanded into
  its 15 ancestors and joined against the cell lists of the regions of a
  shapes table. The pickup and dropoff results are merged on the trip key.
- **Shapes tables** (`src/external/geography.py`). GeoJSON region files are
  downloaded for the selected datasets. Each region geometry becomes a
  sorted list of compacted h3 cells.
- **Feature transformers** (`src/features/utils.py`). These are the
  New-York box flag, the nulling of invalid coordinates, the time in the
  week, the fare, the passenger count, the primary key and the location
  columns. Each is computed per file, concatenated and ordered by index
  label. Concatenating no file at all raises pandas' "No objects to
  concatenate", so a transform over an empty file list fails, and so does
  every step of the pipeline that needs it.
- **Pre-processing** (`src/features/pre_processing.py`). Outliers are
  flagged. Each trip gets a train (0), test (1) or discard (2) status. Every
  feature array is saved once under `full`. Every saved array is cut to its
  first rows under `small`, and split into `train` and `test` by the saved
  status.

The modules follow the source files: `LoadData`, `Coordinates`,
`Geography`, `FeatureUtils` and `PreProcessing`. Beside them are small
supporting modules:

- `Records`: the trip record and its two coordinate filters;
- `H3`: the abstract cell hierarchy;
- `Merge`: pandas' inner merge;
- `Sorting`: `sorted` and `sort_index`;
- `Strings`: `split`, `strip`, `replace` and string order;
- `Common`: shared helpers.

The h3 library's geometric operations (`geo_to_h3`, `polyfill` and
`compact`) are the fields of an `H3.Lib` value passed to every caller.
`h3_to_parent` is concrete: a cell is a base cell plus one digit per
resolution, and the parent truncates the digits. md5, `datetime.strptime`,
number parsing, `np.random.random`, the haversine distance, HTTP `GET`,
GeoJSON decoding and the reading of files are also parameters of the
operations that use them. Pickle files are entries of a `PickleStore`,
which holds one map per folder (`full`, `small`, `train`, `test`) from
base name to array.

## Model

| member | source | states |
|---|---|---|
| Records.NycBoxInsideWorld | src/features/utils.py:38-81 | a trip inside the New York box (40,42)×(-75,-72) also passes the world filter (-90,90)×(-180,180) |
| Records.InNycBox | src/features/utils.py:38-49 | the New-York box test: all four coordinates strictly inside (40,42)×(-75,-72), a NaN failing |
| Records.InWorld | src/features/utils.py:70-81 | the world box test: all four coordinates strictly inside (-90,90)×(-180,180), a NaN failing |
| Records.InBox | src/features/utils.py:40-49 | the strict box test on pickup and dropoff coordinates shared by both filters |
| Records.TripFrame.constructor | src/features/utils.py:55 | a frame read from a file holds its trips and none of the columns the transformers write |
| Coordinates.GetHexagon | src/features/coordinates.py:13-32 | rows that pass the world filter get, in the role's cell column, `geo_to_h3` of that role's point at the requested resolution; no other row changes, and no other column of any row changes |
| Coordinates.HexagonOnlyInWorld | src/features/coordinates.py:16-31 | a row without a cell gets one exactly when all four coordinates are strictly inside the world box, and the cell is computed from the role's own point |
| Coordinates.AssignHexagonFrame | src/features/coordinates.py:26-32 | the other role's cell and every other field are unchanged, and a row failing the filter is unchanged |
| Coordinates.BoundaryRejected | src/features/coordinates.py:17-24 | a latitude of exactly ±90 or a longitude of exactly ±180, on either point, denies the row a cell |
| Coordinates.BothCellsOrNeither | src/features/coordinates.py:60-65 | after both `get_hexagon` calls a trip has both cells or neither, both exactly when it is inside the world box; each cell is computed from its own point; at resolution 15 both cells are at the finest resolution |
| Coordinates.ProcessHexagons | src/features/coordinates.py:60-70 | one output per data file, in order, named "hexagon_" + the base name, holding key, index and both cells of every trip |
| Coordinates.Ancestors | src/features/coordinates.py:43-47 | a cell expands to exactly 15 ancestors at resolutions 1..15 in order, the last being the cell itself; a missing cell expands to the empty list |
| Coordinates.AncestorsMembership | src/features/coordinates.py:43-44 | a cell is in the expansion exactly when it is `h3_to_parent` of the point's cell at some resolution 1..15 (never 0) |
| Coordinates.AncestorColumn | src/features/coordinates.py:42-47 | the `<prefix>_hexagon_ls` column has one ancestor list per row, each the expansion of that row's cell |
| Coordinates.ExplodeMembership | src/features/coordinates.py:50-52 | `explode` turns each list element into a row, and an empty list into one null row |
| Coordinates.ExplodeFrameMembership | src/features/coordinates.py:50-52 | an exploded frame holds (x, v) exactly when some row with value v has x in its exploded list |
| Coordinates.JoinsExploded | src/features/coordinates.py:48-54 | two exploded lists share a row exactly when they share a cell or are both empty (their null rows match each other) |
| Coordinates.LocateMembership | src/features/coordinates.py:48-56 | a (key, region) row of `find_location` is exactly a merge of an exploded area row with an exploded point row on the same value |
| Coordinates.SharedValue | src/features/coordinates.py:48-54 | a shared merge value comes from a point row with that key and an area row with that region |
| Coordinates.LocateWitness | src/features/coordinates.py:48-56 | every (key, region) output row has a witness: a point row with that key and a region row whose lists join; conversely every such pair yields a row |
| Coordinates.Locate | src/features/coordinates.py:41-57 | `find_location`'s (key, region) rows: the merge of the exploded area table with the exploded points, projected to key and region; its rows are characterised by `LocateMembership` and `LocateWitness` |
| Coordinates.JoinsWithCell | src/features/coordinates.py:43-54 | a point cell joins a region's list exactly when one of its ancestors at resolutions 1..15 is in that list |
| Coordinates.MissingHexagon | src/features/coordinates.py:43-54 | a point without a cell is located only in regions whose cell list is empty, so against non-empty lists it yields no row |
| Coordinates.HexagonFrame.constructor | src/features/coordinates.py:77 | a loaded hexagon file holds its rows and no ancestor column yet |
| Coordinates.FindLocation | src/features/coordinates.py:41-57 | adds the role's ancestor column to the frame and changes nothing else; returns the columns "key" and `prefix + "_" + region_id` and the rows of the join |
| Coordinates.CombinedNeedsBoth | src/features/coordinates.py:80 | a combined row (key, p, d) exists exactly when the key was located in p at pickup and in d at dropoff (inner merge) |
| Coordinates.TripLocation | src/features/coordinates.py:13-56 | against regions with non-empty cell lists, a trip gets a combined row (key, p, d) exactly when it passes the world filter and an ancestor of its pickup cell lies in a region p and one of its dropoff cell lies in a region d |
| Coordinates.LocateFile | src/features/coordinates.py:77-80 | one hexagon file's location table: key, pickup region and dropoff region columns, rows of the pickup/dropoff merge on key |
| Coordinates.LocationRows | src/features/coordinates.py:77-80 | the rows of the pickup/dropoff merge on key; `CombinedNeedsBoth` states that a row exists exactly when the key is located at both ends |
| Coordinates.ProcessLocation | src/features/coordinates.py:73-84 | the hexagon files are visited as a permutation sorted by name; one output per file, in that order, named with "hexagon" replaced by the location type, holding that file's location table |
| Coordinates.NameOrder | src/features/coordinates.py:76 | comparing files by name is total and transitive, so `sorted` orders them |
| Coordinates.SortedFilesAtFinest | src/features/coordinates.py:76 | sorting the files keeps every file's cells at the finest resolution |
| Coordinates.LocateFiles | src/features/coordinates.py:76-84 | the loop saves, for every file in the order given, that file's location output |
| Coordinates.AssignHexagon | src/features/coordinates.py:16-31 | a trip inside the world box gets `geo_to_h3` of the role's point in the role's cell column; any other trip is unchanged |
| Coordinates.HexagonsOf | src/features/coordinates.py:64-68 | a trip after the pickup and the dropoff `get_hexagon`, reduced to key, index and both cells |
| Coordinates.HexagonFile | src/features/coordinates.py:63-68 | the rows of one hexagon file, one per trip in order |
| Coordinates.Explode | src/features/coordinates.py:50-52 | pandas `explode` of one list: one row per element, one NaN row for an empty list |
| Coordinates.ExplodeFrame | src/features/coordinates.py:50-52 | `explode` of a frame on its list column, the other column repeated on each row, rows in order |
| Coordinates.Matched | src/features/coordinates.py:48-54 | the merge on "hexagons" of the exploded area table with the exploded point table, before the projection |
| Coordinates.Joins | src/features/coordinates.py:50-53 | two exploded lists meet in the merge: a common cell, or both empty so their NaN rows match |
| Coordinates.LocationColumn | src/features/coordinates.py:55 | a located-region column is named "<prefix>_<region id>" |
| Coordinates.LocationOutput | src/features/coordinates.py:80-83 | one saved location file: the hexagon file's name with "hexagon" replaced by the location type, and its key/pickup/dropoff table |
| Coordinates.NameLe | src/features/coordinates.py:76 | files are visited in string order of their names |
| Coordinates.SaveLocation | src/features/coordinates.py:77-83 | one file's new name and location table |
| Coordinates.RegionIdFor | src/features/coordinates.py:99-105 | the borough shapes use "BoroName" and the state-assembly shapes "AssemDist"; any other location type raises a KeyError |
| Geography.CellOrder | src/external/geography.py:47 | the order `sorted` puts h3 tokens in is total and transitive |
| Geography.ShapeToHexagons | src/external/geography.py:35-47 | the cells of a geometry, by recursion over its parts, or the error it raises |
| Geography.PolygonResult | src/external/geography.py:36-42 | a polygon's cells are `compact(polyfill(shape, resolution))`, sorted, with the same elements and multiplicities |
| Geography.MultiPolygonResult | src/external/geography.py:43-47 | a multi-polygon's cells are a sorted permutation of the concatenation of its parts' cells; the length is the sum of the parts' lengths and duplicates are kept |
| Geography.ShapeCellsSorted | src/external/geography.py:47 | any successful result is sorted |
| Geography.MultiPolygonFirstError | src/external/geography.py:44-46 | a multi-polygon fails with the error of its first failing part |
| Geography.ShapeCellsDefined | src/external/geography.py:36-47 | a geometry yields cells exactly when it and all its nested parts are polygons; any other type raises the unbound-`hexagons` error |
| Geography.ShapeCells | src/external/geography.py:35-47 | the cells of a geometry; the only error it can raise is the unbound `hexagons` of a geometry that is neither a polygon nor a multi-polygon |
| Geography.PartsCells | src/external/geography.py:44-46 | the loop over a multi-polygon's parts; the only error it can raise is the unbound `hexagons` |
| Geography.PartsDefined | src/external/geography.py:44-46 | the parts loop succeeds exactly when every part is made only of polygons |
| Geography.PartsCellsAppend | src/external/geography.py:45-46 | one more loop step appends the next part's cells, or stops at its error |
| Geography.PartsCellsFailFast | src/external/geography.py:45-46 | once a part fails, the later parts do not change the outcome |
| Geography.PartsCellsConcat | src/external/geography.py:44-46 | when every part succeeds, the loop's list is the concatenation of the parts' cells in part order |
| Geography.CellsFromLeaves | src/external/geography.py:35-47 | every cell comes from the compacted fill of some polygon of the geometry at the resolution passed in, and each such cell is present |
| Geography.PartsCellsFromLeaves | src/external/geography.py:45-46 | each part is rasterised at the same resolution as the whole |
| Geography.WantedIff | src/external/geography.py:15-21 | a dataset is wanted exactly when no list is given, or its name is one of the comma-separated, whitespace-stripped pieces |
| Geography.SelectListedNames | src/external/geography.py:15-16 | a comma-joined list of stripped names selects exactly those names |
| Geography.RequestsMembership | src/external/geography.py:20-22 | a link is fetched exactly when its dataset is wanted |
| Geography.DownloadsMembership | src/external/geography.py:20-31 | a write of "<name>_<boundary>.geojson" with the response text happens exactly for a wanted link whose response has status 200 |
| Geography.DownloadGeojson | src/external/geography.py:13-32 | the links fetched in link order; the files listed, one per write, in link order, a name repeated for each link that writes it; the folder as the writes leave it, the last write to a name winning |
| Geography.ConvertHexagonRows | src/external/geography.py:50-57 | the shapes table has one row per feature, with the feature's properties and its geometry's cells; it fails exactly when some geometry is not made of polygons |
| Geography.ConvertHexagon | src/external/geography.py:50-57 | a successful table has one row per feature; the only error is the unbound `hexagons` |
| Geography.ShapesTables | src/external/geography.py:62-67 | at most one table per listed file, read from the folder; the run stops only at the unbound `hexagons` or at a listed file missing from the folder |
| Geography.ShapesTablesComplete | src/external/geography.py:62-67 | a run without failure happens exactly when every listed file converts, and then writes one table per listed file, in order, named with ".geojson" replaced by ".parquet" and holding the regions of the text the folder holds under that name |
| Geography.ShapesTablesStops | src/external/geography.py:62-67 | the first listed file that fails to open or convert stops the run with its error; the tables written are those of the files before it |
| Geography.ConvertSaved | src/external/geography.py:62-68 | the loop over the listed files: its tables and its failure are those `ShapesTables` defines for the same files and folder |
| Geography.ProcessGeometry | src/external/geography.py:60-68 | downloads, then re-opens every listed file, in order, decodes what the folder holds under its name, converts it at resolution 11 unless another is given, and writes it with ".geojson" replaced by ".parquet"; the first failing file stops the run |
| Geography.Paths | src/external/geography.py:31 | the listed paths are the written file names, one per write, in order |
| Geography.Folder | src/external/geography.py:28-29 | the output folder after the writes: every written name is a file of it |
| Geography.FolderWritten | src/external/geography.py:28-29 | every file of the folder holds the text of some write to its name |
| Geography.FolderLastWrite | src/external/geography.py:28-29 | a file holds the text of the last write to its name: `open(fl_save, "w")` replaces earlier contents |
| Geography.ConvertFile | src/external/geography.py:63-66 | opening, decoding and converting one listed file: a file missing from the folder raises FileNotFoundError, otherwise the table has one row per decoded feature or the run fails on the unbound `hexagons` |
| Geography.ShapesTablesFound | src/external/geography.py:63-66 | when every listed file is in the folder, the only error is the unbound `hexagons` |
| Geography.DownloadedTables | src/external/geography.py:60-67 | converting what was just downloaded never misses a file, and the table of the k-th listed file holds the regions of the last text written under its name, so links sharing a name and boundary both yield the last answer's table |
| Geography.GeojsonName | src/external/geography.py:24-27 | a link's file is "<name>_<boundary>.geojson" in the output folder |
| Geography.Requests | src/external/geography.py:20-22 | the URLs requested, in link order: those of the wanted links; `RequestsMembership` characterises them |
| Geography.Downloads | src/external/geography.py:20-31 | the writes made, in link order: (file name, response text) for each wanted link answering with status 200; `DownloadsMembership` characterises them |
| Geography.SelectedNames | src/external/geography.py:15-16 | `datasets` split on commas, each name stripped, or no filter when absent; `WantedIff` characterises it |
| Geography.Wanted | src/external/geography.py:21 | a link is kept when no list is given or its name is in the list |
| Geography.PolygonCells | src/external/geography.py:36-42 | a polygon's cells: `sorted(compact(polyfill(shape, resolution)))`; `PolygonResult` states its properties |
| H3.ToParent | src/features/coordinates.py:44 | the parent at resolution r is at resolution r and is an ancestor of the cell |
| H3.AncestorIsParent | src/features/coordinates.py:44 | a cell has exactly one ancestor at each resolution up to its own |
| H3.ParentOfParent | src/features/coordinates.py:44 | the parent of a parent at a coarser resolution is the cell's parent there |
| H3.ParentValid | src/features/coordinates.py:44 | the parent of a valid cell is valid |
| FeatureUtils.IsCorrect | src/features/utils.py:36-51 | `is_correct` is 1.0 exactly when all four coordinates are strictly inside lat (40,42) and lon (-75,-72), and 0.0 otherwise |
| FeatureUtils.NullInvalid | src/features/utils.py:70-82 | a trip inside the world box is unchanged; any other trip has all four coordinates nulled and nothing else changed |
| FeatureUtils.NullInvalidIdempotent | src/features/utils.py:70-82 | nulling twice is nulling once, and nulling does not change whether a trip passes the filter |
| FeatureUtils.TimeInWeek | src/features/utils.py:116-120 | the value lies in its weekday's 24-hour slot, and its offset into the slot is the hours since midnight |
| FeatureUtils.TimeInWeekBounds | src/features/utils.py:116-120 | the time in the week lies in [0, 168) |
| FeatureUtils.TimeInWeekInjective | src/features/utils.py:116-120 | the weekday and the time of day can be read back from the value |
| FeatureUtils.Tag | src/features/utils.py:19-21 | one output row per trip, labelled with the trip's index |
| FeatureUtils.BoundingBoxSingle | src/features/utils.py:36-51 | writes `is_correct` for every row, changes no other column, and returns that column under the trips' index labels |
| FeatureUtils.CoordinatesSingle | src/features/utils.py:62-83 | nulls the coordinates of the rows failing the world filter, changes nothing else, and returns the four columns pickup_latitude, pickup_longitude, dropoff_latitude, dropoff_longitude |
| FeatureUtils.TimeInWeekSingle | src/features/utils.py:114-121 | writes `time_in_week` for every row, changes no other column, and returns that column |
| FeatureUtils.WithPrefix | src/features/utils.py:164-165 | the kept columns are exactly those starting with the prefix |
| FeatureUtils.WithPrefixCount | src/features/utils.py:164-165 | the comprehension keeps each column starting with the prefix as often as it occurs and drops every other, so its length is the number of such columns |
| FeatureUtils.LocationColumns | src/features/utils.py:161-168 | returns the single "pickup…" column and the single "dropoff…" column; raises an AssertionError unless exactly one column has each prefix |
| FeatureUtils.LocationFileColumns | src/features/utils.py:161-168 | a location file, as `process_location` writes it, passes the assertion with its pickup and dropoff region columns |
| FeatureUtils.IndexOrder | src/features/utils.py:22 | ordering rows by index label is a total preorder |
| FeatureUtils.ConcatSortIndexRows | src/features/utils.py:19-22 | concat-then-sort_index keeps every row of every frame: the row count is the sum of the inputs' counts, the rows are a permutation, and the labels ascend |
| FeatureUtils.ConcatSortIndex | src/features/utils.py:19-22 | `pandas.concat(frames).sort_index().values` has as many rows as the frames together |
| FeatureUtils.ConcatTag | src/features/utils.py:54-56 | labelling per file and concatenating is labelling the concatenation |
| FeatureUtils.FeatureAligned | src/features/utils.py:19-175 | every per-row feature lists the trips in one common order, so the k-th rows of all feature arrays describe the same trip |
| FeatureUtils.FeatureArray | src/features/utils.py:17-143 | for at least one file, a feature array has one row per trip of all files, each row of the feature's width, in the common trip order |
| FeatureUtils.Transformed | src/features/utils.py:17-143 | `transform` raises "No objects to concatenate" exactly when it gets no file; otherwise it returns each trip's feature row in the common trip order, one per trip |
| FeatureUtils.Transformer.constructor | src/features/utils.py:7-8 | a transformer of a kind holds no learned state |
| FeatureUtils.Transformer.Fit | src/features/utils.py:10-11 | `fit` returns the transformer itself |
| FeatureUtils.Transformer.TransformSingle | src/features/utils.py:36-136 | the per-file step gives each trip's feature row under its index label |
| FeatureUtils.Transformer.Transform | src/features/utils.py:53-58 | `transform` returns the feature array of the files, or "No objects to concatenate" when there is none |
| FeatureUtils.Transformer.FitTransform | src/features/utils.py:13-14 | `fit_transform` returns exactly what `transform` returns |
| FeatureUtils.LocationArrayRows | src/features/utils.py:170-175 | location files as the location step writes them all pass the column check, and each contributes all its rows |
| FeatureUtils.LocationArray | src/features/utils.py:170-175 | no file raises "No objects to concatenate"; otherwise the array exists exactly when every file passes the column check, and has as many rows as the files together |
| FeatureUtils.LocationArrayContents | src/features/utils.py:170-175 | a location array holds, in ascending label order, the values under the pickup and dropoff columns of every row of every file, each once per occurrence, labelled by the row's position in its own file |
| FeatureUtils.LocationFrame | src/features/utils.py:162-168 | one file's frame: each row's values under the pickup and dropoff columns the assertions found, selected by name, under the merge's fresh label, its position |
| FeatureUtils.LocationFrames | src/features/utils.py:161-173 | succeeds exactly when every file passes the column assertions, and then holds one frame per file, each that file's frame |
| FeatureUtils.LocationFrameWritten | src/features/utils.py:168 | on a file as the location step writes it (key, pickup region, dropoff region), selecting the two columns by name gives each row's second and third fields |
| FeatureUtils.LocationFramesMembership | src/features/utils.py:170-173 | the concatenated frames hold exactly the frame row of every row of every file |
| FeatureUtils.Field | src/features/utils.py:168 | `df[name]` on a location file row: the field under that column name |
| FeatureUtils.RowOf | src/features/utils.py:168-172 | the frame row of row i of file k: its pickup and dropoff values under its position |
| FeatureUtils.FeatureRow | src/features/utils.py:17-143 | one trip's row of each transformer: the fare, the passenger count, the New-York box flag, the four coordinates with invalid ones nulled, the time in the week, the index label |
| FeatureUtils.TripOrder | src/features/utils.py:19-22 | the order every feature array lists trips in: the trips of all files, stably sorted by index label |
| FeatureUtils.CoordinateRow | src/features/utils.py:64-69 | a trip's four coordinates in the order pickup latitude, pickup longitude, dropoff latitude, dropoff longitude |
| PreProcessing.Distances | src/features/pre_processing.py:16-21 | one distance per coordinate row |
| PreProcessing.OutliersAligned | src/features/pre_processing.py:15-22 | the box flag, distance and fare arrays all list the same trips in the same order |
| PreProcessing.OutlierFlags | src/features/pre_processing.py:23-30 | one flag per row: good exactly when the box flag is 1, 0 < distance < 100 and 0 < fare < 100, all strict, a null failing every comparison |
| PreProcessing.DetectOutliers | src/features/pre_processing.py:14-30 | without training files it raises "No objects to concatenate"; otherwise one flag per training trip, in the feature arrays' order, each the good-row test of that trip |
| PreProcessing.GoodTrip | src/features/pre_processing.py:23-29 | a trip is good exactly when it is in the New York box, its distance is strictly between 0 and 100 and its fare strictly between 0 and 100 |
| PreProcessing.SplitStatus | src/features/pre_processing.py:33-37 | the status has one entry per trip: 2 for a trip that is not good; otherwise 1 when its draw exceeds the training fraction and 0 when it does not |
| PreProcessing.TrainTestSplitIndex | src/features/pre_processing.py:33-37 | the array filled from the draws and then overwritten in place is exactly the status above: one entry per trip, 2 for a trip that is not good, 1 or 0 by its draw |
| PreProcessing.Take | src/features/pre_processing.py:128 | `arr[:examples]` is a prefix: the first `examples` rows, or all but the last `-examples` rows when negative |
| PreProcessing.SimplifyDefault | src/features/pre_processing.py:128 | with the default `examples` of 0 the prefix is empty |
| PreProcessing.Positions | src/features/pre_processing.py:148 | the positions with a given status, ascending, and all of them |
| PreProcessing.Mask | src/features/pre_processing.py:148-152 | boolean indexing keeps exactly the rows whose status equals the value, in original order; a length mismatch raises an IndexError |
| PreProcessing.SplitDisjoint | src/features/pre_processing.py:148-152 | no row is in both train and test, status-2 rows are in neither, and status-0 and status-1 rows are each in their half |
| PreProcessing.Reshape1 | src/features/pre_processing.py:103 | reshaping to one column keeps every element in order, one per row |
| PreProcessing.ColumnOfValues | src/features/pre_processing.py:139 | flattening a one-column array gives back its values |
| PreProcessing.StatusColumn | src/features/pre_processing.py:85 | the status as a one-column array |
| PreProcessing.PickleStore.constructor | src/features/pre_processing.py:95-96 | the four folders hold the given arrays and files |
| PreProcessing.Run | src/features/pre_processing.py:97-104 | running a plan keeps every file already present |
| PreProcessing.RunStopsAtFailure | src/features/pre_processing.py:97-104 | past files that are all present, the first missing entry whose computation raises stops the run with that error and nothing is written |
| PreProcessing.RunKeepsExisting | src/features/pre_processing.py:97-104 | the plan never overwrites or deletes a saved array |
| PreProcessing.RunComplete | src/features/pre_processing.py:97-104 | a run that does not fail leaves an array for every plan entry, and every new array is a planned array reshaped to one column |
| PreProcessing.RunIdempotent | src/features/pre_processing.py:99-100 | running the plan again after a successful run writes nothing new |
| PreProcessing.AllPresentSkipped | src/features/pre_processing.py:99-100 | when every planned file exists, the run changes nothing |
| PreProcessing.GenerateFeatures | src/features/pre_processing.py:80-115 | the "full" folder becomes the result of running the plan: status with fraction 0.75, fare, passenger count, coordinates, distance, time in week, primary key, then the borough and state-assembly locations, each entry carrying the error its computation raises; the other folders are unchanged |
| PreProcessing.NoTrainFiles | src/features/pre_processing.py:97-104 | without training files the first array still missing raises "No objects to concatenate", and nothing is saved |
| PreProcessing.EmptyLocationGlob | src/features/pre_processing.py:107-114 | an empty location glob raises "No objects to concatenate" for its array, which is not saved |
| PreProcessing.SavedRowCounts | src/features/pre_processing.py:103 | a saved array has one row per element: one per trip, or four per trip for the coordinates |
| PreProcessing.UniformWidth | src/features/pre_processing.py:103 | an array of rows of width w holds w times its row count elements |
| PreProcessing.Simplify | src/features/pre_processing.py:118-129 | every array of "full" is saved to "small" cut to its first `examples` rows; other arrays of "small" stay, and no other folder changes |
| PreProcessing.SplitArray | src/features/pre_processing.py:141-153 | one array's split: train is its status-0 rows and test its status-1 rows after cutting to `examples`; a length mismatch raises an IndexError |
| PreProcessing.SplitAll | src/features/pre_processing.py:141-153 | every array of "full" is split by the status; the split fails with an IndexError exactly when some array's cut length differs from the status length, and then that array's train file is left emptied (opened for writing before the mask raised), its test file untouched, and every other array either split or untouched; names outside "full" keep their files, and no other name is added |
| PreProcessing.TrainTestSplit | src/features/pre_processing.py:132-153 | a missing status file raises FileNotFoundError and writes nothing; otherwise the status is flattened and cut to `examples`, and every array of "full", cut to `examples`, is split into its status-0 rows under "train" and its status-1 rows under "test", failing exactly on a length mismatch, which leaves the failing array's train file emptied and its test file untouched; no name outside "full" is added to "train" or "test" |
| PreProcessing.IsGood | src/features/pre_processing.py:23-29 | a row is good when its box flag is 1, 0 < distance < 100 and 0 < fare < 100, all strict, a null failing |
| PreProcessing.IsGoodTrip | src/features/pre_processing.py:15-29 | the outlier test of one trip through its box flag, its haversine distance and its fare |
| PreProcessing.StatusItem | src/features/pre_processing.py:85-86 | the status entry of the plan: the split status of the outlier flags with fraction 0.75, or the error of `detect_outliers` |
| PreProcessing.FeaturePlan | src/features/pre_processing.py:88-93 | the fare, passenger count, coordinates, distance, timestamp and primary key arrays of the training files, in the plan's order |
| PreProcessing.LocationPlan | src/features/pre_processing.py:106-115 | the borough and state-assembly arrays, from the location files of each region type |
| PreProcessing.GeneratePlan | src/features/pre_processing.py:83-115 | the whole plan: the status entry first, then the features, then the locations |
| PreProcessing.PickleName | src/features/pre_processing.py:98 | a saved array is "<name>.pickle" |
| PreProcessing.LoadedStatus | src/features/pre_processing.py:138-139 | the status read back: the saved status flattened and cut to `examples` |
| PreProcessing.SplitOf | src/features/pre_processing.py:143-152 | the train and test arrays are the status-0 and status-1 rows of the array cut to `examples` rows |
| PreProcessing.Written | src/features/pre_processing.py:145-153 | both halves of an array are pickled under its base name in `train` and `test` |
| PreProcessing.Untouched | src/features/pre_processing.py:141-153 | a file the loop did not reach keeps its contents or stays absent |
| PreProcessing.SplitFailedAt | src/features/pre_processing.py:141-153 | the folders after the loop stopped at an array whose length differs from the status: its train file emptied, its test file untouched, every other array split or untouched |
| PreProcessing.CoordinatesSplitPerValue | src/features/pre_processing.py:139-152 | the split masks the saved coordinates value by value with a per-trip status: with two trips, train then test, "train" receives only the first trip's first coordinate and "test" its second |
| PreProcessing.CoordinatesOutgrowStatus | src/features/pre_processing.py:139-148 | the four-per-trip coordinates array, cut to `examples`, is longer than the cut status whenever `examples` exceeds the trip count, so its split raises |
| LoadData.ColumnLayout | src/load_data.py:30-40 | the columns start with "key"; a train file has "fare_amount" inserted at position 1 and is otherwise the test layout; only train files have a fare |
| LoadData.LayoutColumns | src/load_data.py:30-40 | the column list built with `insert` is the layout |
| LoadData.LayoutDistinct | src/load_data.py:30-40 | no column name repeats, so selection by name finds each column where the layout puts it |
| LoadData.RowLimit | src/load_data.py:25-26 | a row limit is applied exactly when `limit_lines` is given and positive, and is that value |
| LoadData.Limit | src/load_data.py:28 | `nrows` keeps the first rows, at most the limit |
| LoadData.Pad | src/load_data.py:28 | a short line is padded with empty fields to the column count |
| LoadData.Tabulate | src/load_data.py:28 | every line fits the columns or the read raises a ValueError; shorter lines are padded |
| LoadData.ReadCsv | src/load_data.py:28 | an empty file raises EmptyDataError; every row read has one field per column |
| LoadData.Relabel | src/load_data.py:42-43 | overwriting the column names keeps the rows, and raises a ValueError on a length mismatch |
| LoadData.LabelIndex | src/load_data.py:44 | the first column with the given name, or none |
| LoadData.ColumnIndices | src/load_data.py:44 | every requested column is found, or the selection raises a KeyError |
| LoadData.Select | src/load_data.py:44 | selecting columns by name gives each row's fields in the requested order, or raises a KeyError for a missing name |
| LoadData.IndicesOfDistinct | src/load_data.py:43-44 | distinct names are found at their own positions |
| LoadData.SelectRelabelled | src/load_data.py:42-44 | after renaming with a list of distinct names, selecting that list returns the rows unchanged |
| LoadData.HexDigit | src/load_data.py:54 | a hex digit's value is below 16 |
| LoadData.HexChar | src/load_data.py:54 | the lower-case digit of a value reads back as that value |
| LoadData.ParseHex | src/load_data.py:54 | `int(s, base=16)` succeeds exactly for a non-empty string of hex digits, its value is below 16^length, and otherwise it raises a ValueError |
| LoadData.HexValueBound | src/load_data.py:54 | n hex digits have a value below 16^n |
| LoadData.ToHex | src/load_data.py:54 | the n-digit lower-case hex form of a value |
| LoadData.HexRoundTrip | src/load_data.py:54 | reading back the n-digit hex form of a value below 16^n gives the value |
| LoadData.HexDigitsRoundTrip | src/load_data.py:54 | writing the value of a lower-case hex string with as many digits gives back the string |
| LoadData.Prefix | src/load_data.py:49 | `s[:n]` is the first n characters, or all of them |
| LoadData.KeyIndex | src/load_data.py:52-56 | the index label read from the first 16 hex digits of the digest lies in [0, 2^64) |
| LoadData.KeyIndexRoundTrip | src/load_data.py:52-56 | a digest starting with the 16-digit hex form of v gives the index v |
| LoadData.KeyIndexDigits | src/load_data.py:52-56 | a digest starting with 16 lower-case hex digits gives an index whose 16-digit hex form is that prefix |
| LoadData.ToTrip | src/load_data.py:44-56 | a row becomes a trip exactly when every field converts; the trip holds the key as read and each field's converted value, and no cells yet |
| LoadData.TripFields | src/load_data.py:46-56 | a trip's index is the key index of the key's md5 and lies in [0, 2^64); its timestamp is parsed from the first 19 characters; a test trip has no fare |
| LoadData.ConvertRows | src/load_data.py:46-56 | all rows convert, each to its trip in order, or the result is the error of some failing row |
| LoadData.SelectedRows | src/load_data.py:28-44 | the selected rows have one field per layout column |
| LoadData.ParseData | src/load_data.py:12-57 | `_parse_data` reads, applies the row limit, relabels when there is no header, selects the layout's columns and converts every row |
| LoadData.Parsed | src/load_data.py:12-57 | a parsed file holds one trip per selected text row, each the conversion of that row |
| LoadData.ParsedByPosition | src/load_data.py:12-57 | without a header, or with a header naming the layout, each data line (within the limit) becomes one trip, its k-th field being the layout's k-th column |
| LoadData.EmptyFile | src/load_data.py:28 | an empty file raises EmptyDataError |
| LoadData.KwargsFor | src/load_data.py:65-71 | a path containing "train" is read as train, with header 0 exactly when it also contains "00.csv" and with no header otherwise; any other path is read as test with header 0 |
| LoadData.ParquetExtension | src/load_data.py:74 | a path whose only ".csv" is its extension is saved with the ".parquet" extension instead |
| LoadData.Filter | src/load_data.py:61-62 | the kept names are exactly the names that match |
| LoadData.ConvertToParquet | src/load_data.py:60-76 | the raw train parts and test files are converted in sorted path order, each written to its parquet path, until the first failure |
| LoadData.ConvertFiles | src/load_data.py:63-76 | the loop converts the files in the order given and stops at the first failure |
| LoadData.ReadRawFile | src/load_data.py:65-73 | a raw file is parsed with the type and header its path selects |
| LoadData.FailureStops | src/load_data.py:63-76 | once a file fails, the files after it are not converted |
| LoadData.ConversionsComplete | src/load_data.py:63-76 | a run without failure writes one parquet file per CSV file, in order, each holding that file's trips |
| LoadData.Conversions | src/load_data.py:63-76 | at most one parquet file per CSV file, and one per file when no file fails |
| LoadData.ConversionOrder | src/load_data.py:63 | the files are processed in increasing path order, each file exactly once |
| LoadData.SortedMatchesProperties | src/load_data.py:79-82 | a sorted glob result is in increasing path order and holds exactly the paths of the matching names |
| LoadData.DataFilesProperties | src/load_data.py:79-82 | both returned lists are sorted; the first holds exactly the "*train*.parquet" files and the second exactly the "*test*.parquet" files |
| LoadData.MapMembership | src/load_data.py:80-81 | a file's path is listed exactly when its name is |
| LoadData.DataFiles | src/load_data.py:79-82 | `get_data_files`: the sorted paths of the raw "*train*.parquet" files and the sorted paths of the raw "*test*.parquet" files; `DataFilesProperties` states their properties |
| LoadData.SortedMatches | src/load_data.py:80-82 | the paths of the names a glob pattern matches, sorted |
| LoadData.RawCsvFiles | src/load_data.py:61-62 | the "parts_train*.csv" files of the raw folder followed by its "test*.csv" files |
| LoadData.MatchesPrefixed | src/load_data.py:61-62 | a `prefix*suffix` glob matches a name of the folder that starts with the prefix and ends with the suffix, without overlap |
| LoadData.MatchesInfix | src/load_data.py:80-81 | a `*infix*suffix` glob matches a visible name of the folder holding the infix before its suffix |
| LoadData.RawPath | src/load_data.py:61-62 | a glob result is the folder joined with the name |
| LoadData.ParquetPath | src/load_data.py:74 | every ".csv" of the path replaced by ".parquet"; `ParquetExtension` states the extension swap |
| LoadData.ParseFile | src/load_data.py:65-73 | a raw file is parsed with the type and header its path selects and no row limit |
| LoadData.Convert | src/load_data.py:46-56 | a row's conversions: the fare of a train row (null for test), the four coordinates, the passenger count, the first 19 characters of the timestamp and the key's index label |
| Merge.MatchesOfMembership | src/features/coordinates.py:51-53 | one left row merges with exactly the right rows of equal key |
| Merge.InnerMerge | src/features/coordinates.py:51-53 | `pandas.merge` with the default inner join; what it holds is stated by `InnerMergeMembership`, `InnerMergePairs` and `InnerMergeMultiplicity` |
| Merge.InnerMergeMembership | src/features/coordinates.py:51-53 | the inner merge holds exactly the combinations of a left row and a right row with equal keys |
| Merge.InnerMergePairs | src/features/coordinates.py:80 | (k, a, b) is merged exactly when (k, a) is on the left and (k, b) on the right |
| Merge.MatchesOfMultiplicity | src/features/coordinates.py:51-53 | one left row contributes as many copies of (k, a, b) as the right side has (k, b) rows |
| Merge.InnerMergeMultiplicity | src/features/coordinates.py:51-53 | the inner merge keeps duplicates: (k, a, b) appears (copies of (k, a)) × (copies of (k, b)) times |
| Merge.MatchesOf | src/features/coordinates.py:51-53 | the rows one left row contributes: joined with each right row of equal key, in right order, at most one per right row |
| Sorting.Map | src/features/coordinates.py:43 | an element-wise `apply`: same length, each element mapped |
| Sorting.InsertPermutation | src/external/geography.py:47 | inserting adds exactly the new element |
| Sorting.InsertSorted | src/external/geography.py:47 | inserting into a sorted list keeps it sorted |
| Sorting.SortPermutation | src/external/geography.py:47 | sorting is a permutation of its input |
| Sorting.SortSorted | src/external/geography.py:47 | the sorted list is in order for any total preorder |
| Sorting.SortMap | src/features/utils.py:22 | sorting labelled rows and then taking values is taking values of sorted rows when the order is on the labels |
| Sorting.Sort | src/external/geography.py:47 | Python's stable `sorted`: equal elements keep their input order; `SortPermutation` and `SortSorted` state its result |
| Sorting.SortedBy | src/external/geography.py:47 | every earlier element is `le` every later one |
| Strings.ReplaceAbsent | src/load_data.py:74 | `replace` leaves a string without the pattern unchanged |
| Strings.ReplaceSuffix | src/load_data.py:74 | a pattern occurring only at the end is replaced there |
| Strings.Split | src/external/geography.py:16 | `split` gives at least one piece |
| Strings.SplitPiecesHaveNoSeparator | src/external/geography.py:16 | no piece holds the separator |
| Strings.JoinSplit | src/external/geography.py:16 | joining the pieces with the separator gives back the string |
| Strings.SplitJoin | src/external/geography.py:16 | splitting a join of separator-free pieces gives back the pieces |
| Strings.StripProperties | src/external/geography.py:16 | `strip` leaves no whitespace at either end and changes nothing in an already stripped string |
| Strings.LexTotal | src/load_data.py:63 | any two paths are ordered one way or the other |
| Strings.LexTransitive | src/load_data.py:63 | string order is transitive |
| Strings.LexAntisymmetric | src/load_data.py:63 | two strings ordered both ways are equal |
| Strings.LexIsTotalPreorder | src/load_data.py:82 | string order is a total preorder, so `sorted` on paths is well defined |
| Strings.Replace | src/load_data.py:74 | Python's `str.replace`: every non-overlapping occurrence, scanning left to right; `ReplaceAbsent` and `ReplaceSuffix` state its uses |
| Strings.Strip | src/external/geography.py:16 | Python's `str.strip()`: leading then trailing whitespace removed; `StripProperties` states its result |
| Strings.Join | src/external/geography.py:16 | Python's `sep.join(parts)` |
| Strings.LexLe | src/load_data.py:63 | Python's `<=` on strings: code-point lexicographic order |
| Common.AllOk | src/load_data.py:46-56 | a row-wise `apply` succeeds exactly when every row does, with each row's value in order; otherwise it raises one of the rows' errors |
| Common.ConcatLength | src/features/utils.py:19-21 | the concatenation has the summed length |
| Common.ConcatMembership | src/features/utils.py:19-21 | an element is in the concatenation exactly when it is in one of the parts |

## Left out

- The h3 library: `geo_to_h3`, `polyfill` and `compact` are parameters (`H3.Lib`), and only their shapes are used. The cell order used by `sorted` is stated through the 64-bit index layout (mode, resolution, base cell, digits padded with 7), not checked against h3's token strings.
- File and network I/O are left out: pandas, parquet, pickle, CSV tokenising, `glob`, `os.makedirs`, `open`, `requests.get`, JSON and `geopandas` reading. Files are values, folders are maps or lists of base names, and a fetch is a function from URL to response.
- The `argparse` entry points and all logging are left out.
- `get_external_shapes` only reads a parquet file. The shapes table is a parameter of `Coordinates.ProcessLocation`.
- `GeographicalDistance` (haversine) is a function parameter `haversine`. `FourierSeries` is not modelled: it is pure floating-point trigonometry and no step of the pipeline calls it.
- Floating point is not modelled. Coordinates and fares are `real`; `float32` parsing is a parameter. `astype(float)` and the float64 widening of saved arrays are not modelled.
- `datetime.strptime`, `hashlib.md5`, number parsing and `np.random.random` are parameters (`LoadData.Converters`, `draws`). A timestamp is reduced to its weekday and seconds since midnight.
- LoadData.KeyIndex: reads the digest with `int(s, base=16)` restricted to hex digits. Python also accepts a sign, a `0x` prefix, underscores and surrounding whitespace, which an md5 hex digest never contains.
- LoadData.ReadCsv: a CSV file is its non-blank lines already split into fields. Quoting, pandas' renaming of duplicate header names, dtype coercion at read time and the error order of mixed failures are not modelled.
- Empty key fields (read by pandas as NaN, which `x.encode` then rejects) are not modelled; a key is always a string.
- Coordinates.FindLocation: requires every point cell to be at resolution 15, as `process_hexagons` writes them. `h3_to_parent` on a coarser cell would raise, and that error is not modelled.
- Merge.InnerMergeMembership: the row order of pandas' merge is not claimed. Join results are stated by membership and by multiplicity.
- FeatureUtils.ConcatSortIndex: `sort_index` is modelled as a stable insertion sort by index label. pandas' default quicksort is not stable, so the order of rows with equal labels is not claimed beyond being a permutation.
- FeatureUtils.LocationArray: the location files are the list `glob` returns, in the order given, not sorted. Their index labels are the merge's fresh 0..n-1 labels, not the md5 labels of the other features, so the location array is not aligned with the other arrays; the model keeps these labels as written.
- Paths are base names inside one folder, plus a folder prefix for the raw files; `os.path.join` and `os.path.split` are not modelled.
- Coordinates.ProcessHexagons: takes the data files (train files, then test files) as an input list, as `get_data_files` would return them.
- Geography.Folder: the output folder starts empty. Files it held before the run are never read back, because every listed file was written during the run, so they are left out.
- FeatureUtils.Field: a location file row has three fields. A column list longer than three names gives no value (null) past the third; pandas never builds such a frame, since its column list matches its fields.
- FeatureUtils.FeatureRow: a fare row of a test trip is null. The source raises a KeyError there, because test files have no `fare_amount`; the pipeline never asks for it.
- LoadData.ConvertToParquet: stops at the first failing file; files converted before it are listed as written.
- PreProcessing.GenerateFeatures: the status array is taken from `draws` whether or not the status file exists. The source calls `np.random.random` only when it computes the status.
- PreProcessing.TrainTestSplit: when a length mismatch fails the split, which of the other arrays were split before the failing one is not stated, only that each is either split or untouched. Their order follows the `glob` order, which is not modelled.
- The order in which `train_test_split` and `simplify` write their files is not modelled, only the final folder contents.
