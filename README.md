# Material requirements of a garment ERP, modelled in Dafny

This project models the material-requirements engine of a Django ERP for a garment
workshop. Each module matches one source file of the repository:

- **MldReader** (`encaixe/utils.py`) reads the `.mld` pattern container. It checks the 10-byte magic `MOLDE_RAW\0`, then reads three little-endian unsigned 32-bit fields that frame a version, a PNG thumbnail and a UTF-8 JSON payload. The reader is a class over a byte stream with a cursor. Its method is proved against a pure parser.
- **Geometry** and **MoldeImporter** (`encaixe/services/molde_importer.py`) cover the import of a mould's pieces:
  - rect, circle and polygon areas and bounding boxes, with the polygon area from a shoelace accumulator loop;
  - the auto-orient and grain-axis rotation decision;
  - the 90° point transform with first-quadrant normalisation;
  - the fixed-rotation flag;
  - the full replacement of the mould's pieces, and the fallback that reads the file as plain JSON.
- **ImportMolde** and **CalculateUsage** are the two older management commands. They hold a second, two-accumulator shoelace form, which is proved equal to the importer's. They also hold an upsert keyed by piece name and the per-colour usage roll-up with waste factor and linear metres.
- **Inventory** (`inventory/models.py`) covers:
  - the unit families;
  - the display and storage conversions, proved inverse to each other;
  - the stock entry that raises the material's and the colour's stock.
- **FabricYield**, **Requirements**, **SalesCalculator** and **LegacyCalculator** cover the yield estimator and the requirements aggregators of `sales/services/material_calculator.py` and `encaixe/services/material_calculator.py`:
  - the estimator is a greedy row packer: fits per row, rows by ceiling division, and the better of two orientations unless rotation is fixed;
  - the aggregators accumulate into a map keyed by (material, colour), with unit normalisation.
- **Purchases** (`purchases/views.py`) covers the "to buy" difference, the purchase-order creation and the clear-then-rebuild recalculation.
- **SalesModels** (`sales/models.py`) covers the order status summary and the line subtotal.
- **ProductsViews** (`products/views.py`) covers:
  - cost estimation;
  - change detection against the standard product;
  - the dimension fallback;
  - `parse_float`;
  - the signature-based duplicate test.
- **ProductionViews** (`production/views.py`) covers:
  - the dashboard grouping;
  - single and bulk production-order (OP) creation;
  - the in-production keying;
  - machine reallocation.
- **ApiViews** (`api/views.py`) covers the bearer-token reading, the authentication wrapper and the two CAD creation endpoints.

Shared modules:

- **Wrappers** holds `Option` and `Result`.
- **Text** holds ASCII lower-casing, Python's whitespace strip, decimal rendering of naturals and string order.
- **Json** holds the JSON value produced by `json.loads`, which is a function parameter here.
- **Sorting** models `list.sort` as a stable insertion sort and proves it sorts and permutes.

Database tables are sequences or maps of records. Stateful views are classes whose
methods first compute the rows to write and then commit them, mirroring
`transaction.atomic`. Quantities in millimetres, metres and money are `real`. π is the
literal 3.141592653589793.

## Model

| member | source | states |
|---|---|---|
| MldReader.DecodeU32 | encaixe/utils.py:32 | an unsigned 32-bit little-endian field decodes to a value below 2^32 |
| MldReader.DecodeEncodeU32 | encaixe/utils.py:32-39 | decoding the four little-endian bytes of any value below 2^32 gives that value back |
| MldReader.EncodeDecodeU32 | encaixe/utils.py:32-39 | any four bytes are the little-endian encoding of the value they decode to |
| MldReader.ReadAt | encaixe/utils.py:25-40 | `f.read(n)` gives the n bytes at the cursor when they exist, otherwise what is left (possibly nothing), never more than n |
| MldReader.Consumed | encaixe/utils.py:25-40 | the reader never moves the cursor past the end of the stream |
| MldReader.Stream.Read | encaixe/utils.py:25 | a read leaves the data unchanged, returns `ReadAt` at the old cursor and moves the cursor by the length returned |
| MldReader.Stream.Rewind | encaixe/utils.py:21-22 | `seek(0)` returns the cursor to the start and leaves the data unchanged |
| MldReader.ReadMldFile | encaixe/utils.py:19-57 | after rewinding, the method's result is `ParseMld` of the stream's whole contents, and the cursor is left just after the last byte asked for |
| MldReader.ReadBody | encaixe/utils.py:30-57 | once the header matched, reading version, thumbnail size, thumbnail and payload gives `ParseBody` of the stream and leaves the cursor at `ConsumedBody` |
| MldReader.ReadPayload | encaixe/utils.py:38-57 | fewer than 4 bytes for the payload length fail with `Incomplete` at the end of the stream; otherwise at most that many bytes are read and decoded, the cursor stopping after them |
| MldReader.Container | encaixe/utils.py:24-40 | a container is 22 bytes plus the thumbnail |
| MldReader.ParseContainer | encaixe/utils.py:24-49 | a well-formed container gives back its version and exact thumbnail, and decodes the first M payload bytes (all of them when fewer; a short payload is not an error); bytes after those are never read |
| MldReader.IncompleteIff | encaixe/utils.py:31-51 | with a correct header, the reader fails as incomplete exactly when the stream ends before the payload-length field is complete |
| MldReader.BadHeaderReadsOnlyHeader | encaixe/utils.py:25-28 | a wrong 10-byte header is rejected as invalid after reading exactly those 10 bytes |
| Geometry.Min | encaixe/services/molde_importer.py:147-156 | the running minimum is a lower bound of the list and occurs in it |
| Geometry.Max | sales/services/material_calculator.py:41-44 | `max(xs)` is an upper bound of the list and occurs in it |
| Geometry.Extent | sales/services/material_calculator.py:41-44 | `max(xs) - min(xs)` is never negative |
| Geometry.ShoelaceArea | encaixe/services/molde_importer.py:107-114 | the shoelace area of a vertex cycle is never negative |
| Geometry.DegenerateShoelace | encaixe/services/molde_importer.py:107-114 | a polygon with one or two vertices has area 0, its edge terms cancelling |
| Geometry.SquareArea | encaixe/services/molde_importer.py:107-114 | the 10 × 10 square has area 100 |
| Geometry.BBox | sales/services/material_calculator.py:26-44 | the bounding box of a non-empty polygon has non-negative sides |
| Geometry.Rotate90 | encaixe/services/molde_importer.py:144-163 | rotation keeps the number of points |
| Geometry.Rotate90Normalised | encaixe/services/molde_importer.py:150-161 | after the rotation (x, y) → (y, −x) and the shift by the new minima, every coordinate is ≥ 0 and both minima are 0 |
| Geometry.Rotate90SwapsExtents | encaixe/services/molde_importer.py:139-163 | the rotated polygon's width is the old height and its height the old width |
| MoldeImporter.ShoelaceAccumulate | encaixe/services/molde_importer.py:107-113 | the accumulator loop adds x_i·y_j − x_j·y_i over every edge, the closing edge included, i.e. it computes the cross sum the shoelace area halves |
| MoldeImporter.MinBoundPrefix | encaixe/services/molde_importer.py:147-156 | the running minimum starting at `float('inf')` after one more coordinate is that coordinate when it is smaller, else unchanged |
| MoldeImporter.RotateTrackingMin | encaixe/services/molde_importer.py:146-156 | the rotation loop yields each point mapped (x, y) → (y, −x), in order, together with the minimum of the new x and of the new y coordinates |
| MoldeImporter.ShiftInPlace | encaixe/services/molde_importer.py:158-161 | the normalisation loop shifts every rotated point, in place, by the two minima and touches nothing else |
| MoldeImporter.RotatePoints | encaixe/services/molde_importer.py:144-163 | rotating then normalising yields exactly the rotate-90 transform of the point list |
| MoldeImporter.ProcessPiece | encaixe/services/molde_importer.py:79-183 | one iteration of the piece loop creates the row whose area, box, fixed flag, grain and geometry are the per-piece rules applied to that piece |
| MoldeImporter.MeasurePiece | encaixe/services/molde_importer.py:84-120 | the area block yields the stored area (`area_mm2` when nonzero, else the rect/circle/polygon fallback) and the box (100 x 100 for a supplied area); the halves `hw`/`hh` are bound exactly for a rect without a supplied area |
| MoldeImporter.RowsOf | encaixe/services/molde_importer.py:75 | the rows selected for a mold all belong to that mold |
| MoldeImporter.WithoutMolde | encaixe/services/molde_importer.py:75 | after `molde.detalhes.all().delete()` no row of that mold remains |
| MoldeImporter.Details | encaixe/services/molde_importer.py:79-183 | one created row per piece, in piece order, each the row for that piece |
| MoldeImporter.RowsOfAppend | encaixe/services/molde_importer.py:171-183 | the rows of a mold in a concatenated table are its rows in each part, in order |
| MoldeImporter.RowsOfWithout | encaixe/services/molde_importer.py:75 | deleting one mold's rows leaves every other mold's rows as they were |
| MoldeImporter.ReplaceIsExact | encaixe/services/molde_importer.py:73-183 | after the replace the mold's rows are exactly one per piece in piece order, and every other mold's rows are unchanged |
| MoldeImporter.ExtractAll | encaixe/services/molde_importer.py:69-84 | reading the pieces list succeeds with one piece per entry, each the conversion of that entry, or fails with the first entry's error |
| MoldeImporter.PieceItems | encaixe/services/molde_importer.py:69-79 | `data.get('pieces', [])` iterated: a non-dictionary `data` raises; a list gives its items, an empty dictionary or string gives none, any other dictionary or string raises on the first `.get`, any other value is not iterable |
| MoldeImporter.SourceData | encaixe/services/molde_importer.py:36-58 | (intended; see Findings) the loaded data: a container's JSON, else the same bytes read again as UTF-8 JSON, else `{}` |
| MoldeImporter.ContainerImportFails | encaixe/services/molde_importer.py:40-43 | as written, every well-formed container with a UTF-8 payload stops the import on the undefined `thumb_bytes`, where the intended loading yields the container's JSON |
| MoldeImporter.NonContainerFallsBack | encaixe/services/molde_importer.py:48-58 | a stream without the magic header is re-read from the start as plain JSON, both as written and as intended |
| MoldeImporter.LoadSource | encaixe/services/molde_importer.py:36-58 | (intended; see Findings) reading the stream (container first, then rewind and read everything) yields the loaded data and leaves the stream's content unchanged |
| MoldeImporter.DetailTable.ReplacePieces | encaixe/services/molde_importer.py:73-183 | the table becomes the other molds' rows followed by one new row per piece |
| MoldeImporter.DetailTable.ProcessMoldeJson | encaixe/services/molde_importer.py:11-187 | (intended; see Findings) the result is `ImportResult`: the pieces of the data read from the uploaded stream, else from the stored file, re-read by path when that data is falsy, `{}` when there is no source at all; a failed re-read or a bad pieces list is an error; on success the mold's rows are replaced by one per piece, on any error the table is unchanged |
| MoldeImporter.FirstSource | encaixe/services/molde_importer.py:25-34 | the first source is the uploaded stream, else the stored file opened `'rb'` (nothing when it does not open), else nothing |
| MoldeImporter.PathData | encaixe/services/molde_importer.py:60-67 | the re-read by path: a container's data, else the whole file as JSON text; a file that does not open, is not UTF-8 or is not JSON fails |
| MoldeImporter.LoadData | encaixe/services/molde_importer.py:22-67 | (intended; see Findings) the data from the first source (`{}` without one), replaced by the re-read by path when it is falsy and the mould has a stored file |
| MoldeImporter.ImportResult | encaixe/services/molde_importer.py:22-69 | the import's outcome: the loading's error, else the pieces list read from the loaded data |
| MoldeImporter.NoStoredFileLoads | encaixe/services/molde_importer.py:22-67 | without a stored file the loading never fails, and with no stream either it gives `{}` |
| MoldeImporter.UnopenableStoredFileFails | encaixe/services/molde_importer.py:60-67 | a stored file that does not open fails the import whenever the stream gave no truthy data |
| MoldeImporter.GarbageStoredFileFails | encaixe/services/molde_importer.py:36-67 | a stored file that is neither a container nor UTF-8 fails the import when the stream, if any, is no better |
| MoldeImporter.StoredContainerReread | encaixe/services/molde_importer.py:60-63 | a stored well-formed container is read by path to its JSON payload |
| MoldeImporter.ReadStoredPath | encaixe/services/molde_importer.py:60-67 | the reader on a fresh handle of the stored file, then the whole file as JSON text, computes `PathData` |
| MoldeImporter.RectPiece | encaixe/services/molde_importer.py:88-93 | a rect without supplied area gets area (2·halfW)(2·halfH) and a 2·halfW × 2·halfH box |
| MoldeImporter.CirclePiece | encaixe/services/molde_importer.py:94-98 | a circle without supplied area gets area π·r² and a 2r × 2r box |
| MoldeImporter.PolyPiece | encaixe/services/molde_importer.py:99-114 | a non-empty polygon without supplied area gets the shoelace area and the coordinate extents as its box; one or two points give area 0 |
| MoldeImporter.SuppliedAreaKept | encaixe/services/molde_importer.py:84-120 | a nonzero `area_mm2` is stored as given, with the 100 × 100 placeholder box |
| MoldeImporter.AutoOrientNeedsZeroArea | encaixe/services/molde_importer.py:130-137 | for a piece with nonzero area auto-orient never fires, so it is rotated exactly when its grain axis is horizontal |
| MoldeImporter.RotatedPolyPiece | encaixe/services/molde_importer.py:144-163 | a rotated polygon is stored in the first quadrant with the width and height of its box swapped |
| MoldeImporter.RotatedRectPiece | encaixe/services/molde_importer.py:141-143 | a rotated rect has its halves swapped, so its box sides swap |
| MoldeImporter.RotateGeomRectTwice | encaixe/services/molde_importer.py:141-143 | swapping a rect's halves twice restores it |
| MoldeImporter.RotateGeomCircle | encaixe/services/molde_importer.py:139-165 | the rotation leaves a circle's geometry unchanged |
| MoldeImporter.FixedFlag | encaixe/services/molde_importer.py:123-169 | `rotacao_fixa` holds exactly when `canRotate` is `False`, `fixedRotation` is `True`, or the piece was rotated here |
| MoldeImporter.GrainAxis | encaixe/services/molde_importer.py:126 | the piece's `grainAxis`, else its `grain`, else `"y"` |
| MoldeImporter.ShouldRotate | encaixe/services/molde_importer.py:128-137 | a piece is rotated when it has area 0, a truthy `autoOrient` and is wider than tall, or when its grain axis is horizontal |
| MoldeImporter.IsFixed | encaixe/services/molde_importer.py:167-169 | the stored flag: `canRotate` false, `fixedRotation` true, or rotated here |
| ImportMolde.TwoSums | encaixe/management/commands/import_molde.py:44-51 | the loop over `range(n - 1)` plus the closing edge accumulates exactly the two closed shoelace sums |
| ImportMolde.PieceArea | encaixe/management/commands/import_molde.py:37-61 | the area block yields the legacy area rule: two-sum shoelace for more than two points, rect, circle, 0 for any other or missing type |
| ImportMolde.SumsMatchCross | encaixe/management/commands/import_molde.py:47-49 | before the closing edge the difference of the two sums is the importer's single-accumulator cross sum |
| ImportMolde.TwoSumShoelace | encaixe/management/commands/import_molde.py:44-52 | for more than two points `0.5 * abs(sum1 - sum2)` equals the importer's shoelace area |
| ImportMolde.LegacyAreaMatchesImporter | encaixe/management/commands/import_molde.py:37-61 | the legacy command and the importer compute the same fallback area for every geometry |
| ImportMolde.UpsertIsOverride | encaixe/management/commands/import_molde.py:63-72 | upserting the pieces one by one is overriding the table with the map from (mold, name) to the last row for that name |
| ImportMolde.PiecesMapKeys | encaixe/management/commands/import_molde.py:63-65 | the upserted keys are exactly the mold paired with each piece's name (`'Sem Nome'` when absent) |
| ImportMolde.UpsertProperties | encaixe/management/commands/import_molde.py:63-72 | after the upsert a key is present iff it was before or is one of the pieces' keys; rows of other keys are unchanged; upserting again changes nothing |
| ImportMolde.UpsertItemsAll | encaixe/management/commands/import_molde.py:33-73 | when every entry can be read, the loop upserts all the pieces and completes |
| ImportMolde.LegacyDb.GetOrCreateMolde | encaixe/management/commands/import_molde.py:26 | an existing mold of that name is returned unchanged; otherwise a mold with a fresh id is created and `created` is true |
| ImportMolde.LegacyDb.Handle | encaixe/management/commands/import_molde.py:14-75 | the mold is got or created; a non-iterable pieces value fails before any upsert; otherwise the table and the outcome are the upsert of the entries up to the first unreadable one |
| CalculateUsage.UsageMeaning | encaixe/management/commands/calculate_usage.py:38-86 | `usage_by_color` has a key for exactly the colours some piece maps to, each value is the sum of the totals of that colour's pieces, and the key order lists the same colours |
| CalculateUsage.FirstSeenDistinct | encaixe/management/commands/calculate_usage.py:83-86 | the dictionary's key order lists each colour once |
| CalculateUsage.ColorTotalOrderFree | encaixe/management/commands/calculate_usage.py:83-86 | a colour's total is the same for any reordering of the pieces |
| CalculateUsage.UsageOrderFree | encaixe/management/commands/calculate_usage.py:42-86 | the whole per-colour usage map is the same for any reordering of the pieces |
| CalculateUsage.UsageByColor | encaixe/management/commands/calculate_usage.py:42-86 | the piece loop (legacy area, /1e6, × qty (default 1) × quantity, hard-coded colour or "Indefinido") builds the per-colour totals and their first-seen order |
| CalculateUsage.Summary | encaixe/management/commands/calculate_usage.py:95-107 | one summary line per colour in key order: net, net × 1.15, and gross / width for 1.40, 1.50 and 1.60 m |
| CalculateUsage.LineFacts | encaixe/management/commands/calculate_usage.py:98-106 | for a non-negative net area the gross area is 15% more, and the linear metres decrease as the width grows |
| CalculateUsage.Handle | encaixe/management/commands/calculate_usage.py:24-107 | an unreadable pieces list aborts with its error; otherwise one line per colour in first-seen order with that colour's total |
| Inventory.ScalingByName | inventory/models.py:35-66 | `to_db_value` multiplies and `get_valor_display` divides by the unit's factor (1000 for the metre names, 10 for the centimetre names, 1 otherwise), a falsy value giving 0 |
| Inventory.ToDbValue | inventory/models.py:52-66 | `to_db_value`: the unit is lower-cased and stripped, then the value is scaled up by that unit's factor |
| Inventory.ValorDisplay | inventory/models.py:35-50 | `get_valor_display`: the unit is lower-cased and stripped, then the value is scaled down by that unit's factor |
| Inventory.RoundTrips | inventory/models.py:30-66 | converting a value to the stored unit and back, or back and then to it, gives the value, for every unit |
| Inventory.ZeroIffZero | inventory/models.py:40-57 | both conversions give 0 exactly for 0 |
| Inventory.PaddedUpperMetres | inventory/models.py:30-62 | `" MT "` is normalised by `lower().strip()` to `mt`, a length in metres with factor 1000 |
| Inventory.KilogramsUnscaled | inventory/models.py:30-66 | `"Kg"` names no length, so its quantities are stored as typed |
| Inventory.InventoryDb.SaveEntrada | inventory/models.py:98-135 | the entry is stored as typed; a new entry also sets the material's reference cost to its unit price and raises its total stock and its (material, colour) stock (created at 0) by the converted quantity; re-saving an existing entry changes no stock |
| Inventory.EntryDisplaysAsTyped | inventory/models.py:113-116 | the amount a new entry adds to stock displays as the quantity typed, and is 1000 × that quantity for a unit in metres |
| Requirements.Add | sales/services/material_calculator.py:77-110 | one `report_data[key]['qtd'] += amount` step: the key is added, its quantity grows by the amount (from 0.0 when new) and no other key changes |
| Requirements.AccumulateAppend | sales/services/material_calculator.py:12-133 | applying two lists of contributions one after the other is applying their concatenation |
| Requirements.AccumulateMeaning | sales/services/material_calculator.py:77-110 | each key of the report holds its starting quantity plus the sum of the amounts contributed to it, and the keys are the starting ones plus those contributed to |
| Requirements.SumForAppend | sales/services/material_calculator.py:12-13 | the per-key sum over a concatenation is the sum of the per-key sums |
| Requirements.Additive | sales/services/material_calculator.py:12-13 | the report of two contribution lists in sequence is the key-wise sum of their reports, over the union of their keys |
| Requirements.FirstKeysEnumerate | sales/services/material_calculator.py:77-108 | iterating the report visits every key exactly once, in first-insertion order |
| Requirements.AddTo | sales/services/material_calculator.py:106-110 | creating the key at 0.0 when absent and then adding is one accumulation step |
| Requirements.NormalisedIsToDb | sales/services/material_calculator.py:96-102 | the calculators' unit normalisation is the stock conversion `to_db_value`: quantity × the unit's factor |
| FabricYield.RollWidth | sales/services/material_calculator.py:23 | the material's standard width when set and nonzero, else 1500 mm |
| FabricYield.TotalPieces | sales/services/material_calculator.py:53-54 | the ordered quantity times the pieces per product, a zero `qtd_padrao` counting as 1 |
| FabricYield.FitsPerRow | sales/services/material_calculator.py:57-58 | the pieces per row are the floor of width / side, raised to 1 when smaller |
| FabricYield.CeilDivLeast | sales/services/material_calculator.py:60 | the ceiling division is the least number of rows that holds all the pieces |
| FabricYield.CeilDivMinimal | sales/services/material_calculator.py:60 | any row count that holds all the pieces is at least the ceiling |
| FabricYield.CeilDiv | sales/services/material_calculator.py:60 | `(a + b - 1) // b` for a positive divisor |
| FabricYield.OrientedLength | sales/services/material_calculator.py:57-61 | the length for one orientation: the rows needed for all pieces at the fits per row across, times the side along the roll |
| FabricYield.LinearMm | sales/services/material_calculator.py:56-73 | the estimate is the normal-orientation length for a fixed piece, else the smaller of the normal and the rotated length |
| FabricYield.RowsSuffice | sales/services/material_calculator.py:57-61 | the normal orientation uses enough rows for every piece and no row too many |
| FabricYield.MorePiecesNoShorter | sales/services/material_calculator.py:54-61 | more pieces never need a shorter length of roll |
| FabricYield.Example200x100 | sales/services/material_calculator.py:56-73 | 60 pieces of 200 × 100 on a 1500 mm roll need 800 mm when rotation is allowed and 900 mm when it is fixed |
| FabricYield.BBoxShapes | sales/services/material_calculator.py:26-44 | the box is 2·halfW × 2·halfH for a rect, 2r × 2r for a circle, the coordinate extents for a non-empty polygon, and 0 × 0 otherwise |
| FabricYield.UnknownTypeUndefined | sales/services/material_calculator.py:29-57 | a geometry without a type has a 0 × 0 box, so the estimate's division is undefined |
| SalesCalculator.OfTipo | sales/services/material_calculator.py:121 | `itens_material.filter(tipo=...)` keeps exactly the BOM lines of that type |
| SalesCalculator.AddItemToReport | sales/services/material_calculator.py:92-110 | `add_item_to_report` adds nothing without a material, otherwise the normalised quantity times the ordered quantity under (material, colour) |
| Requirements.NormaliseQuantity | sales/services/material_calculator.py:93-101 | the unit block of both calculators gives the quantity in stored units: a length unit named as metres scales by 1000, as centimetres by 10, anything else is kept |
| SalesCalculator.AddLines | sales/services/material_calculator.py:116-133 | a loop of `add_item_to_report` calls adds each line's contribution in order |
| SalesCalculator.AddGeneral | sales/services/material_calculator.py:125-129 | the BOM loop skips `tecido_padrao` lines, adds `insumo` lines and ignores any other type |
| SalesCalculator.GeneralContribs | sales/services/material_calculator.py:125-129 | the general BOM loop's contributions: `insumo` lines in order, `tecido_padrao` and other types skipped |
| SalesCalculator.AddConfigs | sales/services/material_calculator.py:17-81 | the config loop adds the row-yield roll length of every configured piece that has a material |
| SalesCalculator.AddStandardFabric | sales/services/material_calculator.py:113-122 | without configured pieces the product's consumption cache is added, or its `tecido_padrao` BOM lines when the cache is empty |
| SalesCalculator.StandardFabric | sales/services/material_calculator.py:113-122 | nothing with configured pieces; else the consumption cache's lines, or the `tecido_padrao` BOM lines when the cache is empty |
| SalesCalculator.AddProduct | sales/services/material_calculator.py:87-133 | the product part of an item adds standard fabric, then its `insumo` BOM lines, then its global insumos |
| SalesCalculator.AddItem | sales/services/material_calculator.py:13-133 | one order item adds its configured pieces and, when it has a product, the product's lines |
| SalesCalculator.ItemContribs | sales/services/material_calculator.py:13-133 | an item's contributions in the order added: configured pieces, then with a product its standard fabric, `insumo` lines and global insumos |
| SalesCalculator.AddItems | sales/services/material_calculator.py:13 | the item loop adds every item's contributions in order |
| SalesCalculator.MaterialRequirements | sales/services/material_calculator.py:5-135 | the nested loops over orders and items build exactly the report of all their contributions |
| SalesCalculator.Report | sales/services/material_calculator.py:5-135 | the report is the accumulation, from empty, of every item's contributions over all orders |
| SalesCalculator.LineAddsStoredQuantity | sales/services/material_calculator.py:92-110 | a BOM line adds its quantity converted by `to_db_value` for the material's unit, times the ordered quantity; a line without material adds nothing |
| SalesCalculator.OrdersContribsKnown | sales/services/material_calculator.py:77-106 | every key of the report names an existing material |
| SalesCalculator.GeneralIsInsumoLines | sales/services/material_calculator.py:125-129 | the general BOM loop adds exactly the `insumo` lines, so standard fabric is never counted there |
| SalesCalculator.StandardFabricOnce | sales/services/material_calculator.py:113-126 | standard fabric is counted at most once per item: not with configured pieces, else from the cache when it has lines, else from the `tecido_padrao` lines |
| SalesCalculator.NoProductOnlyConfigs | sales/services/material_calculator.py:87 | an item without a product adds only its configured pieces |
| SalesCalculator.ReportAdditive | sales/services/material_calculator.py:12-13 | the report for two order lists together is the key-wise sum of their reports |
| SalesCalculator.ZipperExample | sales/services/material_calculator.py:125-129 | two zippers (unit "un") per product as an `insumo` line, ten products, give a requirement of 20 |
| LegacyCalculator.Effective | encaixe/services/material_calculator.py:88 | the accessory's material is its override when set, else the mold line's material |
| LegacyCalculator.AddPic | encaixe/services/material_calculator.py:85-110 | one accessory adds the mold line's quantity, normalised by the effective material's unit, times the ordered quantity, under (effective material, colour) |
| LegacyCalculator.PicContrib | encaixe/services/material_calculator.py:85-110 | one accessory's contribution: the mold line's quantity normalised by the effective material's unit, times the item quantity, under (effective material, colour) |
| LegacyCalculator.AddPics | encaixe/services/material_calculator.py:85-110 | the accessory loop adds every accessory's contribution in order |
| LegacyCalculator.AddLegacyItem | encaixe/services/material_calculator.py:13-110 | one item adds its configured pieces (the same row-yield step as the current calculator) and, with a product, its accessories |
| LegacyCalculator.AddLegacyItems | encaixe/services/material_calculator.py:13 | the item loop adds every item's contributions in order |
| LegacyCalculator.LegacyMaterialRequirements | encaixe/services/material_calculator.py:5-112 | the nested loops over orders and items build exactly the report of all their contributions |
| LegacyCalculator.LegacyReport | encaixe/services/material_calculator.py:5-112 | the legacy report is the accumulation, from empty, of every item's configured pieces and accessories over all orders |
| LegacyCalculator.PicAddsStoredQuantity | encaixe/services/material_calculator.py:88-103 | an accessory is booked under the override material or else the mold line's, with the mold line's quantity converted by `to_db_value` for the booked material's unit |
| LegacyCalculator.LegacyNoProductOnlyConfigs | encaixe/services/material_calculator.py:83 | an item without a product adds only its configured pieces |
| LegacyCalculator.MetresExample | encaixe/services/material_calculator.py:92-103 | 0.8 of a material in unit "MT" per product for 100 products adds 80 000 mm |
| Purchases.ToBuy | purchases/views.py:41 | the quantity to buy is never negative and never less than the shortfall; it is 0 exactly when stock covers the need, and otherwise tops the stock up to the need |
| Purchases.ItemFor | purchases/views.py:83-97 | one purchase item: the key's need, its stock (0.0 without a stock row) and the quantity to buy |
| Purchases.ItemsFor | purchases/views.py:83-97 | one item per key, in key order, each with the needed quantity, the stock (0.0 without a stock row) and the quantity to buy |
| Purchases.KeyOrderEnumerates | purchases/views.py:83 | `requirements.items()` visits every requirement key exactly once |
| Purchases.KeyOrder | purchases/views.py:83 | the keys of the requirements in the dictionary's insertion order |
| Purchases.WithIds | purchases/views.py:27 | `Pedido.objects.filter(id__in=ids)`: only orders of the table with a selected id, and every such order |
| Purchases.WithIdsIds | purchases/views.py:72-77 | the ids `oc.pedidos.set(orders)` stores are exactly the selected ids that name an existing order |
| Purchases.WithIdsSameFilter | purchases/views.py:72 | two id selections that agree on the table's ids select the same orders, in the same order |
| Purchases.WithIdsStable | purchases/views.py:72-133 | looking the stored ids up again gives the very orders the creation summed, so a recalculation on an unchanged table sums the same orders |
| Purchases.ItemsExactlyPerKey | purchases/views.py:83-97 | every requirement key has exactly one item, every item belongs to a key, and each item stores that key's need, stock and shortfall |
| Purchases.PurchaseOrder.CreateItems | purchases/views.py:83-97 | the item-creation loop appends exactly those items and leaves the status and the orders unchanged |
| Purchases.PurchaseOrder.Recalculate | purchases/views.py:120-150 | the old items are cleared and replaced by one item per key of the recomputed requirements of the orders whose ids the purchase order stores, looked up in the order table; status and stored ids are unchanged |
| Purchases.PurchaseOrderCreate | purchases/views.py:62-97 | nothing without a selection; otherwise a new purchase order with status "aberta", storing the ids of the selected orders that exist, and one item per key of those same orders' requirements |
| Purchases.RecalculatedItemsExact | purchases/views.py:128-150 | after a recalculation the items correspond one to one to the current requirement keys, whatever items there were before |
| Purchases.SortByNameCorrect | purchases/views.py:51 | sorting the preview by material name orders the rows by name and keeps exactly the same rows |
| Purchases.PreviewRows | purchases/views.py:33-49 | one preview row per key, in key order, with the material's name, the need, the stock and the shortfall |
| Purchases.PreviewList | purchases/views.py:33-51 | the preview list is those rows sorted (stably) by material name |
| Purchases.KeyOrderNamesKnown | purchases/views.py:34-51 | every requirement key names an existing material, so every preview row has a name to sort by |
| Purchases.VisualizePurchaseCreation | purchases/views.py:17-58 | no preview exactly when nothing is selected; otherwise the requirement rows of the selected orders that exist, sorted by material name |
| SalesModels.CountReleased | sales/models.py:31 | the number of released lines is at most the number of lines |
| SalesModels.StatusDisplay | sales/models.py:20-55 | "Vazio" exactly for an order without lines, "LIBERADO PRODUÇÃO" exactly when it has lines and all are released, "PENDENTE TÉCNICO" exactly when it has lines and none is released, "PARCIAL" otherwise |
| SalesModels.StatusColor | sales/models.py:20-59 | one colour per display text: grey, green, orange, blue |
| SalesModels.StatusInfoOf | sales/models.py:20-51 | the status triple: `Vazio`/grey, `LIBERADO PRODUÇÃO`/green, `PENDENTE TÉCNICO`/orange with `N itens pendentes`, `PARCIAL`/blue with `p de t itens pendentes` |
| SalesModels.PendingMsg | sales/models.py:20-63 | the pending message is empty exactly when every line is released (the empty order included) |
| SalesModels.AllReleasedIff | sales/models.py:31-33 | the released count equals the number of lines exactly when every line is released |
| SalesModels.NoneReleasedIff | sales/models.py:31-39 | the released count is 0 exactly when no line is released |
| SalesModels.CanceladoPending | sales/models.py:31-72 | a cancelled line is never released, so its order is never shown as released and always has a pending message |
| SalesModels.PartialCounts | sales/models.py:45-51 | an order with some but not all lines released (the `PARCIAL` case of the display) reports `{pendentes} de {total} itens pendentes`, the pending count strictly between none and all |
| SalesModels.PendingCounts | sales/models.py:39-44 | a wholly pending order reports `{total} itens pendentes` |
| SalesModels.PedidoItem.Save | sales/models.py:85-89 | with a nonzero price and quantity the subtotal becomes price × quantity; otherwise it is kept; price and quantity are unchanged |
| ProductsViews.CostAppend | products/views.py:20-28 | the cost of two lists of lines together is the sum of their costs |
| ProductsViews.EstimatedCost | products/views.py:20-28 | the cost loops add, over the material items and then the insumos, the cost price (0 when missing) times the quantity |
| ProductsViews.CostOrderFree | products/views.py:20-28 | the estimated cost does not depend on which list is summed first |
| ProductsViews.UnpricedAddsNothing | products/views.py:23-27 | a line whose material has no cost price adds nothing |
| ProductsViews.CostNonNegative | products/views.py:20-28 | with no negative price and no negative quantity the estimated cost is not negative |
| ProductsViews.FirstMaterialFor | products/views.py:66-72 | the reference's first item for a piece, and nothing exactly when the piece has no item |
| ProductsViews.FindOldItem | products/views.py:68-72 | the inner search with `break` finds the reference's first item for the piece |
| ProductsViews.PiecesLoop | products/views.py:64-77 | the piece loop reports a change exactly when some piece's posted material id differs from the reference's (absent on either side counting) |
| ProductsViews.PiecesChanged | products/views.py:64-77 | some piece's posted material id differs from the reference's first item for it |
| ProductsViews.InsumosLoop | products/views.py:93-107 | the in-order insumo comparison stops at the first difference in material id or (after the comma swap) in quantity beyond 0.001, or raises when the posted quantities run out |
| ProductsViews.InsumoScan | products/views.py:93-107 | the insumo comparison from one index on: true at the first difference, false when none, raising when the posted quantities run out |
| ProductsViews.HasChanges | products/views.py:59-111 | the change flag: a piece change, else without a reference always a change, else a different insumo count or the in-order comparison |
| ProductsViews.InsumoScanMeaning | products/views.py:93-107 | with enough posted quantities the comparison finds a change exactly when some insumo differs |
| ProductsViews.InsumoScanRaises | products/views.py:95 | the check raises exactly when the posted quantities are fewer than the reference's insumos and no difference shows up before they run out |
| ProductsViews.InsumoScanClean | products/views.py:93-107 | a comparison that finds nothing has compared every insumo and found it equal |
| ProductsViews.NoReferenceIsChange | products/views.py:110-111 | without a base reference the new reference is always a change |
| ProductsViews.UnchangedMeansSame | products/views.py:59-115 | "no change" means a reference exists, every piece's posted material is the reference's, and the insumos agree one by one in material and to within 0.001 in quantity |
| ProductsViews.RectFallbackIsBBox | products/views.py:206-218 | for a rect without `w`/`h` and a lost stored size the dimension fallback is the box the material calculators use |
| ProductsViews.StoredSizeWins | products/views.py:206-211 | a stored size with no zero side is shown as stored |
| ProductsViews.DetailDims | products/views.py:206-218 | the size shown: the stored size without a zero side, else `w`/`h`, else twice `halfW`/`halfH`, else the stored size |
| ProductsViews.ParseFloatCommaFree | products/views.py:335-337 | `parse_float` reads a value the same before and after the comma swap |
| ProductsViews.ParseFloatDecimalComma | products/views.py:335-337 | `"a,b"` reads as `"a.b"` |
| ProductsViews.ParseFloat | products/views.py:335-337 | `parse_float`: the empty string reads as 0.0, anything else is parsed after the comma is swapped for a point |
| ProductsViews.PyLessAgrees | products/views.py:533-559 | wherever Python's tuple comparison is defined it is the strict part of the total signature order |
| ProductsViews.PyLess | products/views.py:533-559 | Python's `<` on signature tuples: entrywise, undefined where `None` meets an integer |
| ProductsViews.SigOrder | products/views.py:533-559 | the signature order (a missing id before any id) is total, transitive and antisymmetric |
| ProductsViews.SignatureEqualIffSameTuples | products/views.py:510-561 | sorted signatures are equal exactly when the two signatures hold the same tuples with the same multiplicities |
| ProductsViews.FindDuplicate | products/views.py:538-564 | (intended; see Findings) the sibling loop finds the first sibling whose signature holds the same tuples as the proposed one, and nothing exactly when there is none |
| ProductsViews.DuplicateOrderFree | products/views.py:510-561 | reordering the proposed tuples never changes the duplicate verdict |
| ProductsViews.MixedColourRaises | products/views.py:533-559 | as written, two insumos of the same material and quantity, one without colour, make the sort compare `None` with an int (TypeError), where the intended order puts the colourless one first |
| ProductionViews.SumAtSnoc | production/views.py:42 | the total quantity of a list of lines grows by exactly the added line's quantity |
| ProductionViews.ReadyIdxMeaning | production/views.py:22-60 | the ready query lists exactly the lines of the product that are released and in no OP, each once, in table order |
| ProductionViews.GroupMeaningAt | production/views.py:30-42 | after any number of lines, a product has a group exactly when it has a ready line so far, holding those lines and their total |
| ProductionViews.GroupsMeaning | production/views.py:28-42 | the dashboard groups are the products with a ready line, each holding exactly those lines in table order and the sum of their quantities |
| ProductionViews.Dashboard | production/views.py:11-46 | the grouping loop builds one group per product with a ready line, holding its ready lines and their total; lines without a product are skipped |
| ProductionViews.ProdKeyHead | production/views.py:132 | a mould's key starts with `m`, a product's key with a digit |
| ProductionViews.ProdKeyInjective | production/views.py:132 | equal keys mean the same product, or, for lines without a product, the same mould |
| ProductionViews.ProdKey | production/views.py:132 | the in-production key: the product id, else `m_` and the mould id, else none |
| ProductionViews.InProdIdxMeaning | production/views.py:130-133 | the lines counted under a key are exactly the lines in production with that key, in table order |
| ProductionViews.InProdMeaningAt | production/views.py:131-144 | after any number of lines, a key is present exactly when it has a line in production so far, holding their total quantity |
| ProductionViews.InProductionTotals | production/views.py:129-144 | the quantities of `products_in_production`: one entry per key with a line in production, holding the sum of those lines' quantities; lines with neither product nor mould are skipped |
| ProductionViews.Allocated | production/views.py:265-275 | after an allocation the OP holds exactly the selected machines, another OP's machine stays with it unless selected, a machine the OP lost is freed |
| ProductionViews.AllocationIdempotent | production/views.py:265-275 | allocating the same selection twice is allocating it once |
| ProductionViews.AllocationSteals | production/views.py:268-275 | another OP loses exactly its selected machines and gains none |
| ProductionViews.MarkAll | production/views.py:82-83 | the listed lines become in production and linked to an OP; every other line is unchanged |
| ProductionViews.MarkAllKeepsQty | production/views.py:82-83 | linking a line changes no quantity |
| ProductionViews.OpItemsTotalAppend | production/views.py:75-80 | the quantity the OP items carry is additive over concatenation |
| ProductionViews.LinkedTotal | production/views.py:67-80 | the OP items of a group, one per line and carrying the line's quantity, carry exactly the group's total |
| ProductionViews.SameQtySameItems | production/views.py:75-80 | OP items and totals depend only on the lines' quantities |
| ProductionViews.BulkIdxMeaning | production/views.py:164-176 | a product's list holds exactly the selected lines that are pending or released and have that product, in table order |
| ProductionViews.AllBulkMeaning | production/views.py:164-173 | the lines the bulk creation uses are exactly the selected, pending-or-released lines with a product |
| ProductionViews.ByProductAt | production/views.py:170-176 | `items_by_product` has a key exactly for the products in first-appearance order, each holding that product's selected eligible lines |
| ProductionViews.ProductOrderDistinct | production/views.py:174-179 | the dictionary lists each product once |
| ProductionViews.ProductOrderMeaning | production/views.py:170-179 | the products iterated are exactly those with a selected eligible line, each once |
| ProductionViews.TotalOverStep | production/views.py:176-180 | one more line adds its quantity to its product's group total |
| ProductionViews.TotalOverAll | production/views.py:170-180 | the groups' totals add up to the total quantity of the selected eligible lines |
| ProductionViews.BulkOpsTotal | production/views.py:179-185 | one OP per listed product, carrying together the products' group totals |
| ProductionViews.BulkOpItemsTotal | production/views.py:186-191 | the OP items of the listed products carry together the products' group totals |
| ProductionViews.BulkStep | production/views.py:179-194 | one more product in the creation loop adds its OP, its OP items and its linked lines |
| ProductionViews.BulkTotalsMatch | production/views.py:164-194 | the OPs created in bulk, and also their OP items, carry exactly the total quantity of the selected eligible lines |
| ProductionViews.BulkMarkedAt | production/views.py:186-193 | a line is linked exactly when it is a selected eligible line of one of the listed products |
| ProductionViews.BulkMarksEligible | production/views.py:164-193 | the bulk creation links every selected eligible line and no other |
| ProductionViews.MarkedSameItems | production/views.py:186-193 | linking lines changes neither later OP items nor totals |
| ProductionViews.GroupSelected | production/views.py:170-176 | the dictionary-building loop groups the selected eligible lines by product and lists the products in order of first appearance |
| ProductionViews.ProductionDb.LinkItems | production/views.py:75-83 | the linking loop appends one OP item per line with the line's quantity and marks exactly those lines in production |
| ProductionViews.ProductionDb.CreateOp | production/views.py:48-88 | with no ready line nothing changes; otherwise one planned OP for the total of the ready lines, one OP item per line, and every ready line marked in production |
| ProductionViews.ProductionDb.Allocate | production/views.py:258-278 | an unknown OP changes nothing; otherwise its machine set becomes the selection and the machines' current OP becomes the allocation |
| ProductionViews.ProductionDb.CreateOneOp | production/views.py:180-193 | one round creates a planned OP numbered next, for the lines' total, links those lines and changes nothing else |
| ProductionViews.ProductionDb.CreateRound | production/views.py:179-194 | one round of the creation loop extends the OPs, the OP items and the linked lines by those of the next product, and its OP is numbered right after the earlier ones |
| ProductionViews.ProductionDb.CreateRounds | production/views.py:179-194 | the creation loop leaves one OP per listed product, in list order and numbered consecutively, with their OP items, and the lines of those products linked |
| ProductionViews.ProductionDb.CreateOpBulk | production/views.py:153-203 | one OP per product of the selected eligible lines in first-appearance order, numbered consecutively, with their OP items; exactly the selected eligible lines are marked in production |
| ProductionViews.CreateOpExhausts | production/views.py:56-83 | after `create_op` no line of the product is ready any more, so a second call creates nothing |
| ProductionViews.NoneReadyEmpty | production/views.py:56-64 | when no line of the product is ready the query is empty |
| ProductionViews.ReadyForOp | production/views.py:22-25 | a line is ready for an OP when it is released for production and not yet in an OP |
| ProductionViews.BulkEligible | production/views.py:164-176 | a selected line is used by the bulk creation when it is pending or released and has a product |
| ApiViews.GetToken | api/views.py:10-14 | a token is read exactly when the Authorization header starts with the case-sensitive `Bearer ` prefix, and the header is that prefix followed by the token |
| ApiViews.GetTokenRoundTrip | api/views.py:10-14 | any token sent after the prefix is read back unchanged |
| ApiViews.LowerCaseBearerIsNoToken | api/views.py:12 | a lower-case `bearer` prefix yields no token |
| ApiViews.CheckAuth | api/views.py:16-25 | the wrapped view's answer is returned for every request, whatever the token |
| ApiViews.Elements | api/views.py:68-69 | a loop over the posted value proceeds exactly for a list, an empty dictionary or an empty string, and over a list it visits its items |
| ApiViews.IdOf | api/views.py:96-121 | a primary key is read only from the JSON number equal to it |
| ApiViews.IdOfNumber | api/views.py:96-121 | every non-negative integral number names the row with that id |
| ApiViews.CollectErrSticks | api/views.py:55-86 | once one element has raised, the whole request fails with that exception |
| ApiViews.CollectOkIff | api/views.py:55-86 | a creation loop succeeds exactly when every element's step succeeds |
| ApiViews.CollectLoop | api/views.py:69-80 | the loop that stops at the first failure computes the specified records or the first failure |
| ApiViews.DetalheOf | api/views.py:69-80 | a posted piece creates one row of the mould exactly when it and its `geometria_json` are dictionaries and none of the fields stored in a NOT NULL column is posted as `null`; the row then has every NOT NULL column set |
| ApiViews.NullPieceFieldFails | api/views.py:72-79 | a piece posting `null` for its name, area, size or quantity fails the request (`IntegrityError`), as `nome_original` and the sizes are NOT NULL columns |
| ApiViews.EmptyPieceDefaults | api/views.py:72-79 | an empty piece is a polygon named `Peca` of zero area and size, vertical grain, quantity 1 and empty geometry |
| ApiViews.GivenFieldsKept | api/views.py:72-79 | for any piece without a `null` in a NOT NULL field, each of the columns holds the field the piece gives, or its own default (`Peca`, `pol`, 0.0, 0.0, 0.0, `vertical`, 1) when that field is missing, whatever the other fields |
| ApiViews.NoPiecesNoDetails | api/views.py:68 | a document without `pecas` creates the mould and no pieces |
| ApiViews.UnnamedMoldeFails | api/views.py:57-65 | a document without a name, or with a `null` one, fails when the mould is saved, since `Molde.nome` is NOT NULL |
| ApiViews.CreateMoldeRows | api/views.py:54-86 | the mould row (name, file and image when truthy), then one piece row per posted piece; a created mould always has the document's non-null name |
| ApiViews.DetailsOnePerPiece | api/views.py:69-80 | a successful piece loop creates exactly one row per posted piece, in order |
| ApiViews.InsumoOf | api/views.py:106-112 | an insumo is created exactly when it is a dictionary whose `material_id` names an existing material and whose `quantidade` is not `null`; otherwise the request fails |
| ApiViews.FirstDetalhe | api/views.py:124-127 | the found piece row is the first of the mould with the given name, and none is found exactly when no such row exists |
| ApiViews.ItemOf | api/views.py:116-138 | a posted piece creates at most one material row, of an existing material and of type `tecido_padrao` |
| ApiViews.ItemQuantityIsSquareMetres | api/views.py:130-136 | a piece's fabric consumption times a million is its area in mm², i.e. the quantity is in m² |
| ApiViews.UnknownMaterialSkipped | api/views.py:120-138 | a piece naming a missing material creates nothing and the request goes on |
| ApiViews.ProdutoDefaults | api/views.py:95-103 | a created product names an existing mould, has the document's non-null name, costs 0, and is standard unless the document says otherwise |
| ApiViews.UnnamedProdutoFails | api/views.py:95-103 | a product document without a name, or with a `null` one, fails, with `IntegrityError` once the mould exists, since `Produto.nome` is NOT NULL |
| ApiViews.CreateProdutoRows | api/views.py:91-142 | the mould lookup, the product row, the insumo rows, then the piece-material rows, each step's failure failing the whole document |
| ApiViews.ApiDb.CreateMolde | api/views.py:54-86 | invalid JSON fails, and so does a `null` in a NOT NULL column; otherwise the mould and its pieces are appended and its id answered exactly when the document is well formed, and nothing is written on failure |
| ApiViews.ApiDb.CreateProdutoPadrao | api/views.py:91-142 | invalid JSON fails, and so does a `null` in a NOT NULL column; otherwise the product, its insumos and its piece materials are appended and its id answered exactly when the document is well formed, and nothing is written on failure |
| Sorting.InsertKeepsSorted | products/views.py:533-559 | inserting into a sorted list under a total order keeps it sorted |
| Sorting.SortByCorrect | products/views.py:533-559 | sorting orders the list and keeps exactly its elements |
| Sorting.SortedUnique | products/views.py:533-559 | under a total, transitive and antisymmetric order two sorted lists with the same elements are equal |
| Sorting.SortedEqualIffPermutation | products/views.py:533-559 | the sorted copies of two lists are equal exactly when the lists are permutations of each other |

## Left out

- I/O: file opening and closing, the thumbnail image storage (`encaixe/services/molde_importer.py:43-47`), HTTP request and response glue, messages, redirects and template rendering. UTF-8 decoding and `json.loads` are function parameters.
- ORM and transactions: tables are in-memory sequences and maps. Queryset order is taken as table order. `transaction.atomic` is modelled by writing only after every step has succeeded. Raw database field coercion errors are not modelled.
- Floating point and `Decimal`: all arithmetic is on `real`; IEEE rounding is not modelled.
- Python's `str.lower()` is modelled as ASCII lower-casing. This is exact for the ASCII names the code compares against.
- Django's case-insensitive header lookup: `ApiViews.AuthHeader` reads the exact key `Authorization`.
- Python `list.sort` is modelled as a stable insertion sort.
- FabricYield.LinearMm: requires the bounding-box sides it divides by to be nonzero; the source raises ZeroDivisionError there, and that exception is not modelled.
- SalesCalculator.MaterialRequirements: requires every referenced material to exist and every configured piece to have nonzero bounding-box sides (`ConfigOk`). The database's foreign keys guarantee the first; the second is the ZeroDivisionError above.
- LegacyCalculator.LegacyMaterialRequirements: same preconditions as the sales calculator.
- LegacyCalculator: `encaixe/services/material_calculator.py:3` imports `MoldePeca` from `molds.models`, which defines only `Molde` and `MoldeDetalhe`; importing the module raises ImportError, so as the repository stands the legacy calculator (and `encaixe/views/orders.py`, which imports it) cannot run. The model describes the function body as written.
- Purchases: the selected ids are given as a set of naturals; splitting the posted string and the error a non-numeric id raises are not modelled.
- MoldeImporter.DetailTable.ProcessMoldeJson: requires every piece to be processable without an unbound local (`Importable`). Two cases would raise or read a stale value, and neither is modelled as an error:
  - an unknown or empty piece with area 0 reads an unassigned `w_current`;
  - a rect with a supplied area that is rotated reads unassigned `hw`/`hh`.
- MoldeImporter: the thumbnail saving is left out apart from the undefined-name failure (see Findings).
- MoldeImporter.PathData: the re-read by path assumes the stored file has a `path`. The text read of `open(path, 'r')` decodes with the locale's encoding, which the model takes to be UTF-8 (the `utf8` parameter); its newline translation is not modelled, since it does not change a JSON value.
- MoldeImporter.Convert: reading one piece's fields (`geom`, its `type`, `float(area_mm2)`, the halves, radius and points, `name` and `qty`) is the parameter `extract`, whose failures are errors of the import. A JSON `null` name meeting the NOT NULL `nome_original` column is left to that parameter.
- MoldeImporter.ProcessPiece: `orientacao_fio=str(grain_axis)` is stored as the raw JSON value of the grain axis; Python's `str` rendering of it is not modelled.
- ProductionViews: `item.save()` on a linked line (`production/views.py:83` and `:193`) also reruns `PedidoItem.save`, which recomputes the subtotal (`SalesModels.PedidoItem.Save`); the model leaves the subtotal out of the line rows it marks.
- ProductsViews.HasChanges: the standard reference the posted form is compared against (`products/views.py:55-57`) is a parameter; its lookup is not modelled.
- ProductionViews.ProductionDb.Allocate: requires the selected machines to exist, which the source guarantees by selecting them from the table.
- ProductionViews: `hasOp` on an order line mirrors the reverse relation from OP items. The OP ids listed by `products_in_production` and the grouping on the `create_op_screen` page are left out, because they are display only. For an unknown product, `create_op` answers 404; the model finds no ready line for it and writes nothing, so the tables end the same way.
- ProductsViews: the loops that build the signature lists are not modelled; a signature is given as its list of tuples. `parse_float` is modelled up to the comma swap, and the float parsing itself is a parameter. The `None` that `zip_longest` passes for a missing value is not modelled.
- ApiViews.IdOf: reads a primary key only from a JSON number. Django would also accept a numeric string.
- ApiViews: `list_materials`, `list_insumos`, `get_molde` and `get_produto_padrao` are query-and-render glue.
- Time-based code (production durations, the IoT dashboard), the MQTT listener, forms, admin, URL configuration, signals, scripts and the remaining HTTP views are outside this model.

## Findings

| source | as written | input that shows it | evidently intended | confidence | as-written member | corrected member |
|---|---|---|---|---|---|---|
| encaixe/services/molde_importer.py:43 | after a successful container read, the code tests `thumb_bytes`, a name that is never bound; the NameError is not among the caught exceptions, so the import aborts | any well-formed `.mld` container whose payload is valid UTF-8 | use the container's JSON payload (and its thumbnail) | high, not executed | MoldeImporter.ContainerImportFails | MoldeImporter.LoadSource |
| products/views.py:533,559 | signature tuples holding `None` for a missing piece or colour are sorted with Python's `<`, which raises TypeError when it compares `None` with an integer | two signature tuples equal up to a colour, one with colour `None` and one with colour 1 | order `None` before any id, so the duplicate test (`ProductsViews.FindDuplicate`) is multiset equality | high, not executed | ProductsViews.MixedColourRaises | ProductsViews.SignatureEqualIffSameTuples |
