# leaflet.offline in Dafny

A model of the core of leaflet.offline, a Leaflet plugin that keeps map tiles in the
browser's local storage (localforage) so that a map can be shown offline. The model covers
four parts of the plugin.

- **The shape test `shapesIntersect`.** It decides which tiles of a GeoJSON shape are worth
  saving. There are three versions:
  - `src/Shapes.js` tests every vertex both ways with turf's point-in-polygon;
  - `dist/bundle.js` tests one way;
  - the older `src/GeoUtils.js` is written with `find` (modules `Shapes`, `BundleShapes`,
    `GeoUtils`, over the GeoJSON datatype of `GeoJson`).
- **The tile layer `TileLayerOffline`.** It covers:
  - the storage key of a tile url (`_getStorageKey`);
  - the stored-or-network choice of `createTile`/`setDataUrl`;
  - the number of simultaneous downloads;
  - the enumeration of the tiles of an area by `getTileUrls`, and of a set of shapes by
    `getTileUrlsInShapes` with each build's tile filter (module `TileLayer`).
- **The batch save controller `ControlSaveTiles`.** In `src/ControlSaveTiles.js` and its
  copy in `dist/bundle.js`, which adds a `cancelled` flag and `setShapes`, it:
  - chooses the zoom levels;
  - builds the queue of tiles;
  - starts `getSimultaneous()` downloads;
  - chains a new download on every completed one;
  - counts loaded, failed, processed and saved tiles;
  - fires the progress events, and cancels and clears the store (modules `SaveStatus`,
    `SaveControl`).
- **The older controller `L.Control.SaveTiles`.** This is `src/Control.SaveTiles.js`
  (module `LegacySaveControl`). It has no failure counters and no cancellation, and acts on
  status 200 only.

The foreign parts are parameters of the model. Each is assumed to return a value and never
to throw; nothing else is assumed of them:
- turf's point-in-polygon test;
- Leaflet's url templating and projection of bounds to tile bounds;
- `geojson-bbox`;
- `tilebelt`'s `tileToGeoJSON`.

The two builds are one class with a `build` constant (`Src` or `Dist`) wherever they differ
only in a few lines, so that the differences stay visible in the contracts.

The asynchronous callbacks are methods the environment calls in any order:
- the DONE state of a request;
- the settled `removeItem`/`setItem` chain;
- the settled `length()` and `clear()`.

The controllers keep ghost bookkeeping:
- a batch number;
- the batch each pending request and save belongs to;
- the requests and saves of the current batch that ended without counting.

With it, the class invariant states that every tile of a batch is processed, in flight,
queued or dropped, and that every loaded tile is saved, being saved or unsaved. This holds
until a completion left over from an earlier batch changes the current counters. The source
allows that, because every callback reads `self.status` when it runs.

Behaviour the code has and the plugin's documentation describes differently (the model
follows the code):
- 'loadend' fires only from the 200 branch of a request's DONE handler. A batch whose last
  request to complete failed (status 400 and above) never fires it, and a status that is
  neither 200 nor at least 400 ends the chain of that download slot with nothing counted.
  `SaveControl.ControlSaveTiles.OnLoadDone` and `TileFailed` state both.
- `processed <= lengthToBeSaved` holds only while no completion from a cancelled or
  replaced batch has run (`stale` in the invariant).
- Starting more downloads than there are queued tiles makes `_loadTile` read `.url` of
  `undefined` and throw a TypeError. The bundle's control stops only once cancelled.

## Model

| member | source | states |
|---|---|---|
| Js.AnyOf | src/Shapes.js:22-26 | `xs.some(p)` is true iff some element satisfies `p` |
| Js.IndexOf | src/TileLayerOffline.js:59 | `indexOf` gives the first offset at which the pattern occurs, or -1 iff it occurs nowhere |
| Shapes.AnyMemberIntersects | src/Shapes.js:37-44 | a collection intersects iff some member intersects (both directions) |
| Shapes.NestedAnyIsFlatAny | src/Shapes.js:21-26 | the nested `some` over lines and positions holds iff some position of the flattened lines passes the vertex test |
| Shapes.LinesCase | src/Shapes.js:21-26 | a Polygon or MultiLineString intersects iff some position of some ring or line passes the vertex test |
| Shapes.IntersectsIffTestedVertexInside | src/Shapes.js:18-48 | `ShapesIntersectBy`, the dispatch of `shapesIntersect`, holds iff some vertex it tests passes the vertex test against the other shape |
| Shapes.MembersIntersectIffTestedVertexInside | src/Shapes.js:37-44 | a collection's answer holds iff some tested vertex of its members passes the test |
| Shapes.ShapesIntersectCases | src/Shapes.js:18-48 | `ShapesIntersectBy`, case by case: Point is its vertex test; Polygon and MultiLineString need some position of some ring or line; MultiPolygon some position of some ring of some polygon; Feature is its geometry; a collection needs some member; every other type is false |
| Shapes.MultiPolygonCase | src/Shapes.js:27-34 | a MultiPolygon intersects iff one of its polygons has a position passing the test |
| Shapes.NoTestedVertexNoIntersection | src/Shapes.js:18-48 | a shape with no tested vertex (empty coordinate arrays, MultiPoint, LineString, unknown type) intersects nothing |
| Shapes.OnlyTestedVerticesMatter | src/Shapes.js:18-48 | two shapes with the same tested vertices get the same answer: the test is vertex containment, not area overlap |
| Shapes.SelfIntersection | src/Shapes.js:7-13 | when the turf test counts a shape's own vertices as inside, a shape with a vertex intersects itself |
| Shapes.SrcShapesIntersectIsTwoWayVertexTest | src/Shapes.js:7-48 | `Shapes.ShapesIntersect` (`shapesIntersect` of `src/Shapes.js`) holds iff some tested vertex of the first shape is inside the second, or passes the swapped-argument turf call |
| BundleShapes.BundleShapesIntersectIsOneWayVertexTest | dist/bundle.js:24-63 | `BundleShapes.ShapesIntersect`, the bundle's `shapesIntersect`, holds iff some tested vertex of the first shape is inside the second |
| BundleShapes.BundleRefinesSrc | dist/bundle.js:24-28 | the bundle's answer implies the `src/Shapes.js` answer, and equals it when the swapped call never holds |
| GeoUtils.Find | src/GeoUtils.js:13-17 | `find` answers `undefined` iff every callback answers false, raises iff the first callback that does not answer false raises, and otherwise answers the first element whose callback answers true |
| GeoUtils.FindTotal | src/GeoUtils.js:13-17 | a `find` whose callbacks never raise answers normally, and finds something iff some callback answers true |
| GeoUtils.FindNeverTrue | src/GeoUtils.js:19-25 | a `find` whose callbacks never answer true raises iff one of them raises, and otherwise answers `undefined` |
| GeoUtils.FindMember | src/GeoUtils.js:28-35 | a member found in a collection is one whose own answer is truthy |
| GeoUtils.LineCallbackAnswers | src/GeoUtils.js:13-17 | the callback over a ring or line answers whether one of its positions is inside |
| GeoUtils.RingsFindFirstRingInside | src/GeoUtils.js:12-17 | a Polygon or MultiLineString never raises; it answers the first ring holding a position inside, or `undefined` iff no position is inside |
| GeoUtils.RingsAgreeWithBundle | src/GeoUtils.js:12-17 | the ring `find` never raises, and its answer is truthy iff some ring or line has a position inside |
| GeoUtils.BundleRingsIffRingInside | dist/bundle.js:36-41 | the bundle's Polygon and MultiLineString answer holds iff some ring or line has a position inside |
| GeoUtils.RingCallbackRaises | src/GeoUtils.js:20-24 | as written, the ring callback of the MultiPolygon branch raises iff the ring has a position |
| GeoUtils.PolygonCallbackRaises | src/GeoUtils.js:19-25 | as written, the polygon callback raises iff one of its rings has a position |
| GeoUtils.MultiPolygonRaisesReferenceError | src/GeoUtils.js:18-25 | `GeoUtils.ShapesIntersect` as written: a MultiPolygon with any position raises a ReferenceError, and otherwise answers `undefined` |
| GeoUtils.PolygonCallbackAnswers | src/GeoUtils.js:19-25 | with the turf test innermost, the polygon callback answers whether one of its positions is inside |
| GeoUtils.EmptyPolygonCallback | src/GeoUtils.js:19-25 | a polygon without positions gets false without the innermost callback being called |
| GeoUtils.AgreesWithBundle | src/GeoUtils.js:9-39 | about `GeoUtils.ShapesIntersect` and `ShapesIntersectWith`: wherever the innermost callback is the turf test or is never reached, the `find` version raises nothing and its answer is truthy iff the bundle's answer is true |
| GeoUtils.MultiPolygonAgreesWithBundle | src/GeoUtils.js:18-25 | the same agreement for the MultiPolygon branch |
| GeoUtils.TurfMultiPolygonAgrees | src/GeoUtils.js:18-25 | with the turf test innermost, the MultiPolygon branch raises nothing and is truthy iff the bundle's MultiPolygon answer holds |
| GeoUtils.BundleMultiPolygonIffPolygonInside | dist/bundle.js:42-49 | the bundle's MultiPolygon answer holds iff one polygon has a position inside |
| GeoUtils.FoundPolygonIffInside | src/GeoUtils.js:18-25 | with the turf test innermost, the MultiPolygon branch answers a truthy value iff one polygon has a position inside |
| GeoUtils.EmptyMultiPolygonAgrees | src/GeoUtils.js:18-25 | a MultiPolygon without positions answers falsy in both versions, whatever the innermost callback |
| GeoUtils.MembersAgreeWithBundle | src/GeoUtils.js:28-35 | a collection finds a member iff the bundle's `some` over its members holds |
| GeoUtils.CorrectedAgreesWithBundle | src/GeoUtils.js:9-39 | `GeoUtils.ShapesIntersectCorrected`, with `coordsIntersectPolygon` in the MultiPolygon branch, never raises and is truthy iff the bundle's test holds |
| GeoUtils.AsWrittenAgreesWithoutMultiPolygons | src/GeoUtils.js:9-39 | as written, the test agrees with the bundle's on every shape that reaches no MultiPolygon with a position |
| TileLayer.StorageKeyRewritesOneCharacter | src/TileLayerOffline.js:57-68 | `StorageKey` (`_getStorageKey`; in the class, `GetStorageKey` under the current `_url`): the key is the url when `{s}` is missing or leads the template; otherwise the url with the one character at the `{s}` offset replaced by the first subdomain (appended when the url is shorter) |
| TileLayer.SubdomainVariantsShareKey | src/TileLayerOffline.js:57-68 | urls that differ only in the subdomain character share one key |
| TileLayer.StorageKeyIdempotent | src/TileLayerOffline.js:57-68 | with a one-character first subdomain, the key of a key is the key |
| TileLayer.ZoomTemplateReplacesFirstZ | src/TileLayerOffline.js:88 | `ZoomTemplate`, that is `replace('{z}', zoom)`, changes the template only at its first `{z}`, and not at all without one |
| TileLayer.ZoomTemplateKeepsSubdomainOffset | src/TileLayerOffline.js:57-88 | when the template's `{s}` (if any) comes before its first `{z}`, writing the zoom level in leaves the offset `_getStorageKey` reads from `indexOf('{s}')` unchanged |
| TileLayer.ZoomTemplateKeepsKey | src/TileLayerOffline.js:57-88 | under the same condition, or without `{z}`, `_getStorageKey` gives every url the same key under the zoom template as under the template itself |
| TileLayer.RowCellsSizeAndContents | src/TileLayerOffline.js:101-110 | the column loop visits exactly the x of the row's range, one per step |
| TileLayer.GridRowsSizeAndContents | src/TileLayerOffline.js:100-110 | the rows visited so far hold exactly the cells of those rows within the x range |
| TileLayer.GridSizeAndContents | src/TileLayerOffline.js:95-110 | the loops enumerate exactly the (maxX-minX+1)*(maxY-minY+1) cells of the tile bounds, none for empty bounds |
| TileLayer.RowCellsRowMajor | src/TileLayerOffline.js:101-110 | a row is enumerated by strictly increasing x |
| TileLayer.GridRowsRowMajor | src/TileLayerOffline.js:100-110 | rows are enumerated in strictly row-major order |
| TileLayer.GridRowMajorNoRepeats | src/TileLayerOffline.js:100-110 | the enumeration is row-major, so no tile is listed twice |
| TileLayer.Descriptor | src/TileLayerOffline.js:102-108 | a descriptor's key is `_getStorageKey` of its own url |
| TileLayer.DescriptorsOnePerCell | src/TileLayerOffline.js:100-110 | one descriptor per cell, in the cells' order, each keyed by its url's storage key |
| TileLayer.DescriptorsConcat | src/TileLayerOffline.js:100-110 | the descriptors of concatenated cells are the descriptors of each part, concatenated |
| TileLayer.KeepsTileByVertices | dist/bundle.js:218-222 | `KeepsTile`, the per-build tile filter: the bundle keeps a tile iff a tested vertex of the tile is inside the shape or one of the shape is inside the tile; `src/` keeps it iff a tested vertex of the shape passes either turf call against the tile |
| TileLayer.DistKeepsWhatSrcKeeps | dist/bundle.js:220 | a tile `src/` keeps is kept by the bundle unless only the swapped call put it in |
| TileLayer.KeptTiles | src/TileLayerOffline.js:152-172 | the filter never lists more tiles than the bounds hold |
| TileLayer.InKeptTiles | src/TileLayerOffline.js:152-172 | a descriptor is kept iff it is the descriptor of a cell of the bounds that passes the filter |
| TileLayer.KeptTilesConcat | src/TileLayerOffline.js:152-172 | the kept tiles of concatenated cells are the kept tiles of each part, concatenated |
| TileLayer.ShapesTilesConcat | src/TileLayerOffline.js:133-173 | the tiles of a list of shapes are those of its parts concatenated: nothing merged or reordered |
| TileLayer.InShapeTiles | src/TileLayerOffline.js:136-172 | one shape lists exactly the descriptors of the cells in its bounds whose tiles pass its filter |
| TileLayer.InShapesTiles | src/TileLayerOffline.js:127-173 | a descriptor is listed iff some shape lists it |
| TileLayer.DistListsWhatSrcLists | dist/bundle.js:216-233 | every tile `src/` lists for a set of shapes, the bundle lists too, when the swapped call never holds |
| TileLayer.SetDataUrl | src/TileLayerOffline.js:39-49 | resolves with the stored blob iff the store answers an object; rejects on anything else or on failure |
| TileLayer.TileLayerOffline.CreateTileSrc | src/TileLayerOffline.js:20-31 | the tile ends with the stored blob's url iff an object is stored under the url's key and the read succeeds, and otherwise with the network url |
| TileLayer.TilesForKeyedUnderZoomTemplate | src/TileLayerOffline.js:85-113 | every descriptor of `TilesFor`, a batch, is keyed by `_getStorageKey` while `_url` is the zoom template |
| TileLayer.ReadKeyed | src/TileLayerOffline.js:41 | the corrected batch: the same urls in the same order, each keyed as `setDataUrl` looks it up under the restored `_url` |
| TileLayer.ReadKeyedAgreesWhereSubdomainFirst | src/TileLayerOffline.js:85-113 | where `{s}` (if any) comes before the first `{z}`, or there is no `{z}`, the batch as written is already keyed as tiles read it |
| TileLayer.TileLayerOffline.SavedTileServed | src/TileLayerOffline.js:20-49 | under that condition, a tile whose descriptor came from a batch of this layer and whose key holds a blob is served from the store |
| TileLayer.TileLayerOffline.SavedTileMissedWhenZoomPrecedesSubdomain | src/TileLayerOffline.js:88 | with template "a{z}{s}b", subdomains ["c"] and zoom 12, the batch stores url "a12cb" under key "a12cb", while the tile for "a12cb" reads key "a12cc" and falls back to the network |
| TileLayer.TileLayerOffline.ReadKeyedTileServed | src/TileLayerOffline.js:20-49 | keyed as corrected, every saved tile of a batch is served from the store, whatever the template |
| TileLayer.TileLayerOffline.RowTileUrls | src/TileLayerOffline.js:101-109 | the column loop yields one descriptor per x of the row, by increasing x |
| TileLayer.TileLayerOffline.GetTileUrls | src/TileLayerOffline.js:83-116 | `TilesFor` of the bounds: the descriptors of every tile of the bounds at the zoom, row-major, under the zoom template; `_url` is restored |
| TileLayer.TileLayerOffline.AddShapeTiles | src/TileLayerOffline.js:133-173 | the `forEach` callback appends the kept tiles of one shape's bounds, row-major |
| TileLayer.TileLayerOffline.ShapeRowTiles | src/TileLayerOffline.js:153-171 | the column loop yields the descriptors of the row's cells whose tiles pass the filter, by increasing x |
| TileLayer.TileLayerOffline.GetTileUrlsInShapes | src/TileLayerOffline.js:124-181 | shape by shape (a single shape as a list of one), the tiles of its bounds that pass this build's filter; `_url` is restored |
| SaveStatus.ZoomRange | src/ControlSaveTiles.js:186-188 | the zoom loop lists every level from the map's zoom to `maxZoom` in ascending order, none when the zoom is above `maxZoom` |
| SaveStatus.ChooseZoomsRefusesBelowMinimum | src/ControlSaveTiles.js:177-191 | `ChooseZooms`, the zoom choice of `_saveTiles`: the batch is refused iff saving what you see below zoom 5; the levels saved then lie between the map's zoom and `maxZoom` |
| SaveStatus.ZoomLevelsToSave | src/ControlSaveTiles.js:177-191 | the zoom choice of `_saveTiles`, with its loop, equals `ChooseZooms` |
| SaveStatus.InBatchTiles | src/ControlSaveTiles.js:196-202 | `BatchTiles`, the queue of `_saveTiles`: a descriptor is queued iff the layer lists it at one of the zoom levels |
| SaveStatus.SingleZoomBatch | src/ControlSaveTiles.js:190-202 | with the map's zoom alone, the queue is what the layer lists at that zoom |
| SaveStatus.LayerTiles | src/ControlSaveTiles.js:197-199 | `getTileUrlsInShapes` when the area is shapes, `getTileUrls` otherwise: the layer's tiles of the area at that zoom; the template is unchanged |
| SaveStatus.CollectTiles | src/ControlSaveTiles.js:196-202 | the queue is `BatchTiles`: the layer's tiles per zoom level, concatenated in order; the layer's template is unchanged |
| SaveControl.RecordResponse | src/ControlSaveTiles.js:257-284 | 200 counts a tile loaded and processed, 400 and above failed and processed, any other status nothing; processed - loaded - failed is preserved |
| SaveControl.ControlSaveTiles.constructor | src/ControlSaveTiles.js:53-58 | keeps the layer and options, starts with the initial status and asks the store for its size |
| SaveControl.ControlSaveTiles.SetStorageSize | src/ControlSaveTiles.js:65-80 | a function callback is answered at once iff the known size is truthy; otherwise the store is asked |
| SaveControl.ControlSaveTiles.OnLengthDone | src/ControlSaveTiles.js:74-85 | success records the size, fires 'storagesize' and answers the callback; failure answers 0 and rejects |
| SaveControl.ControlSaveTiles.SetLayer | src/ControlSaveTiles.js:101-103 | replaces the layer |
| SaveControl.ControlSaveTiles.SetBounds | src/ControlSaveTiles.js:109-111 | sets the bounds option, nothing else |
| SaveControl.ControlSaveTiles.SetShapes | dist/bundle.js:418-420 | sets the shapes option, nothing else (bundle only) |
| SaveControl.ControlSaveTiles.SetSaveWhatYouSee | src/ControlSaveTiles.js:117-119 | sets the option, nothing else |
| SaveControl.ControlSaveTiles.SetMaxZoom | src/ControlSaveTiles.js:125-127 | sets the option, nothing else |
| SaveControl.ControlSaveTiles.SetZoomLevels | src/ControlSaveTiles.js:133-135 | sets the option, nothing else |
| SaveControl.ControlSaveTiles.ResetBatch | src/ControlSaveTiles.js:227-236 | a fresh status with the tiles queued and every counter 0 starts a new batch, and the invariant holds again |
| SaveControl.ControlSaveTiles.LoadTile | dist/bundle.js:576-585 | the bundle does nothing once cancelled; otherwise the head of the queue moves to the requests in flight, and an empty queue throws a TypeError |
| SaveControl.ControlSaveTiles.StartSave | src/ControlSaveTiles.js:206-214 | fires 'savestart' and requests the first min(n, queue) tiles for n = `getSimultaneous()`; throws a TypeError iff n exceeds the queue |
| SaveControl.ControlSaveTiles.SaveTiles | src/ControlSaveTiles.js:168-220 | refuses below zoom 5 with nothing changed; otherwise the new status queues the batch's tiles, and downloads start at once iff no `confirm` callback is set |
| SaveControl.ControlSaveTiles.StartBatch | src/ControlSaveTiles.js:204-219 | a new batch queues exactly the given tiles; with no `confirm` callback the first min(n, queue) are requested at once, and a TypeError is thrown iff n exceeds the queue |
| SaveControl.ControlSaveTiles.Cancel | dist/bundle.js:542-547 | fires 'savecancelled' and installs an empty status, marked cancelled in the bundle only |
| SaveControl.ControlSaveTiles.SaveTile | src/ControlSaveTiles.js:296-300 | starts one remove-then-store chain for the key and blob |
| SaveControl.ControlSaveTiles.TakeRequest | src/ControlSaveTiles.js:255-256 | the request that reached DONE leaves the in-flight list |
| SaveControl.ControlSaveTiles.CountLoaded | src/ControlSaveTiles.js:258-260 | loaded and processed go up by one, the response is saved, and the invariant holds again |
| SaveControl.ControlSaveTiles.AllProcessed | src/ControlSaveTiles.js:268-269 | every tile processed and none queued means, for an undisturbed batch, nothing in flight and nothing dropped |
| SaveControl.ControlSaveTiles.CountFailed | src/ControlSaveTiles.js:275-276 | failed and processed go up by one, and the invariant holds again |
| SaveControl.ControlSaveTiles.CountDropped | src/ControlSaveTiles.js:255-286 | a status that is neither 200 nor at least 400 is accounted as dropped, and the invariant holds again |
| SaveControl.ControlSaveTiles.TileLoaded | src/ControlSaveTiles.js:257-272 | counts the tile, saves its blob, requests the next tile or fires 'loadend' when the queue is empty and all are processed; 'loadend' implies nothing of the batch is left |
| SaveControl.ControlSaveTiles.TileFailed | src/ControlSaveTiles.js:274-284 | counts a failure, fires 'loadtilefailed', and requests the next tile if any; never fires 'loadend' |
| SaveControl.ControlSaveTiles.OnLoadDone | src/ControlSaveTiles.js:255-286 | the DONE handler: 200 and 400-and-above as above, any other status changes nothing; 'loadend' implies status 200, an empty queue and processed = to be saved |
| SaveControl.ControlSaveTiles.TakeSave | src/ControlSaveTiles.js:299-300 | the settled save leaves the pending list |
| SaveControl.ControlSaveTiles.CountSaved | src/ControlSaveTiles.js:301 | saved goes up by one, and the invariant holds again |
| SaveControl.ControlSaveTiles.AnnounceSaved | src/ControlSaveTiles.js:303-308 | fires 'savetileend', then 'saveend' and one size query iff every tile is saved |
| SaveControl.ControlSaveTiles.NotStored | src/ControlSaveTiles.js:309-316 | a failed `setItem` leaves the entry removed and fires 'saveerror'; a failed `removeItem` changes nothing; the invariant holds again |
| SaveControl.ControlSaveTiles.AllSaved | src/ControlSaveTiles.js:305-306 | every tile saved means, for an undisturbed batch, every tile loaded, none failed, nothing queued, in flight or pending |
| SaveControl.ControlSaveTiles.TileStored | src/ControlSaveTiles.js:300-308 | stores the blob, counts it, fires 'savetileend', and 'saveend' plus a size query when every tile is saved |
| SaveControl.ControlSaveTiles.OnSaveDone | src/ControlSaveTiles.js:296-317 | stored, setItem failed ('saveerror', entry gone) or removeItem failed (nothing); 'saveend' implies, for an undisturbed batch, every tile loaded, none failed, nothing pending |
| SaveControl.ControlSaveTiles.RmTiles | src/ControlSaveTiles.js:319-334 | clears at once iff no `confirmRemoval` callback is set |
| SaveControl.ControlSaveTiles.ClearTiles | src/ControlSaveTiles.js:321-327 | starts one `clear()` |
| SaveControl.ControlSaveTiles.OnClearDone | src/ControlSaveTiles.js:322-326 | success empties the store, sets the size to 0, fires 'tilesremoved' then 'storagesize'; failure changes nothing |
| LegacySaveControl.LegacyZooms | src/Control.SaveTiles.js:88 | the `zoomlevels` option when set, else the map's zoom alone |
| LegacySaveControl.LegacyControlSaveTiles.constructor | src/Control.SaveTiles.js:24-28 | keeps the layer and options and asks the store for its size |
| LegacySaveControl.LegacyControlSaveTiles.SetStorageSize | src/Control.SaveTiles.js:33-39 | a truthy known size goes to the callback at once, and without a callback that throws a TypeError; otherwise the store is asked |
| LegacySaveControl.LegacyControlSaveTiles.OnLengthDone | src/Control.SaveTiles.js:39-45 | success records the size, fires 'storagesize' and answers the callback; failure changes nothing |
| LegacySaveControl.LegacyControlSaveTiles.SetLayer | src/Control.SaveTiles.js:58-60 | replaces the layer |
| LegacySaveControl.LegacyControlSaveTiles.ResetBatch | src/Control.SaveTiles.js:109-116 | a fresh status with the tiles queued starts a new batch, and the invariant holds again |
| LegacySaveControl.LegacyControlSaveTiles.LoadTile | src/Control.SaveTiles.js:124-129 | requests the shifted tile; `undefined` throws a TypeError |
| LegacySaveControl.LegacyControlSaveTiles.ShiftQueue | src/Control.SaveTiles.js:100 | `shift()` answers the head and drops it, or `undefined` on an empty queue |
| LegacySaveControl.LegacyControlSaveTiles.StartSave | src/Control.SaveTiles.js:96-102 | fires 'savestart' and requests the first min(n, queue) tiles; throws a TypeError iff n exceeds the queue |
| LegacySaveControl.LegacyControlSaveTiles.SaveTiles | src/Control.SaveTiles.js:83-108 | queues the tiles of the map's bounds for each zoom level, starts a new batch, and downloads at once iff no `confirm` callback is set |
| LegacySaveControl.LegacyControlSaveTiles.SaveTile | src/Control.SaveTiles.js:152-155 | starts one remove-then-store chain |
| LegacySaveControl.LegacyControlSaveTiles.TakeRequest | src/Control.SaveTiles.js:130-131 | the request that reached DONE leaves the in-flight list |
| LegacySaveControl.LegacyControlSaveTiles.CountLoaded | src/Control.SaveTiles.js:132-133 | loaded goes up by one, the response is saved, and the invariant holds again |
| LegacySaveControl.LegacyControlSaveTiles.AllLoaded | src/Control.SaveTiles.js:139-140 | every tile loaded and none queued means, for an undisturbed batch, nothing in flight and nothing dropped |
| LegacySaveControl.LegacyControlSaveTiles.CountDropped | src/Control.SaveTiles.js:130-131 | a status other than 200 is accounted as dropped, and the invariant holds again |
| LegacySaveControl.LegacyControlSaveTiles.TileLoaded | src/Control.SaveTiles.js:131-142 | counts the tile loaded, saves it, requests the next tile or fires 'loadend' when all are loaded |
| LegacySaveControl.LegacyControlSaveTiles.OnLoadDone | src/Control.SaveTiles.js:130-144 | only status 200 is acted on; 'loadend' implies an empty queue and loaded = to be saved |
| LegacySaveControl.LegacyControlSaveTiles.TakeSave | src/Control.SaveTiles.js:154-155 | the settled save leaves the pending list |
| LegacySaveControl.LegacyControlSaveTiles.CountSaved | src/Control.SaveTiles.js:156 | saved goes up by one, and the invariant holds again |
| LegacySaveControl.LegacyControlSaveTiles.AnnounceSaved | src/Control.SaveTiles.js:157-161 | fires 'savetileend', then on the last tile 'saveend' and `setStorageSize()`, which throws iff the size is known and truthy |
| LegacySaveControl.LegacyControlSaveTiles.NotStored | src/Control.SaveTiles.js:162-167 | a failed `setItem` leaves the entry removed; nothing fires; the invariant holds again |
| LegacySaveControl.LegacyControlSaveTiles.AllSaved | src/Control.SaveTiles.js:158-159 | every tile saved means, for an undisturbed batch, every tile loaded, nothing queued, in flight or pending |
| LegacySaveControl.LegacyControlSaveTiles.TileStored | src/Control.SaveTiles.js:155-161 | stores and counts the blob; on the last one fires 'saveend' and calls `setStorageSize()`, which throws iff the size is known and truthy |
| LegacySaveControl.LegacyControlSaveTiles.OnSaveDone | src/Control.SaveTiles.js:152-168 | a stored blob is `TileStored`: the store, `lengthSaved`, 'savetileend', and once all are saved 'saveend' with `setStorageSize()`, which throws a TypeError iff the size is truthy and otherwise queries the size; a failed chain fires nothing; 'saveend' implies, for an undisturbed batch, every tile loaded and nothing pending |
| LegacySaveControl.LegacyControlSaveTiles.RmTiles | src/Control.SaveTiles.js:169-171 | clears the store at once, without asking |
| LegacySaveControl.LegacyControlSaveTiles.OnClearDone | src/Control.SaveTiles.js:171-175 | success empties the store, sets the size to 0 and fires 'tilesremoved' then 'storagesize' |

## Left out

- DOM and UI: `onAdd`, `_createButton`, the yellow and teal debug layers that
  `getTileUrlsInShapes` adds to the map, and `console.log`. None of them changes the model's
  state.
- Foreign geometry and templating are parameters. They are assumed to return (turf's test
  a boolean), never to throw; nothing else is assumed of them:
  - turf's point-in-polygon test (floating point);
  - `L.TileLayer.prototype.getTileUrl`;
  - `map.project` with the floor to tile bounds;
  - `geojson-bbox`;
  - `tilebelt.tileToGeoJSON`.
- A foreign call that throws is not modelled. In particular, the swapped call
  `isPointInPolygon(shape, point)` at `src/Shapes.js:12` passes a GeoJSON shape where turf
  expects a point. If turf throws there, `src/` `shapesIntersect` throws as well. The model
  instead gives that call a boolean answer, like any other call of the test.
- A Feature whose `geometry` is `null` (allowed by section 3.2 of RFC 7946) is not
  modelled: `Feature` always holds a geometry. The source passes a null geometry back to
  `shapesIntersect` (`src/Shapes.js:35-36`, `dist/bundle.js:50`, `src/GeoUtils.js:26`),
  which reads `type` of `null` (`src/Shapes.js:19`) and throws a TypeError.
- Zoom levels are integers in the model. With a `zoomSnap` below 1 the map's zoom, and so
  `getZoom()` and the range built from it (`src/ControlSaveTiles.js:186-188`,
  `dist/bundle.js:499`), can be fractional. Fractional zooms are not modelled, and neither
  is their text in a url or key (`src/TileLayerOffline.js:88`).
- `L.TileLayer.prototype.createTile`, the image element and `URL.createObjectURL` are
  abstract. `CreateTileSrc` states the tile's final `src`, not the intermediate assignment.
- TileLayer.TileLayerOffline.GetSimultaneous has no contract of its own, since its value is
  the length of the subdomain list. The number of downloads it allows is stated by
  `StartSave`.
- Event payloads are not modelled, only event names and order. Among the payloads left out
  is `cancel`'s `self.status`, which reads the global `self` and not the control.
- The prototype-shared `status` object and the initial `null` counters are modelled as a
  per-instance status with 0 counters.
- Rejected promises that nobody observes (the rethrows in `_saveTile`'s catch handlers and
  in `setStorageSize`) are modelled as a `rejected` flag or a returned error, without their
  error values.
- The localforage store is an abstract `map` from key to blob. `length()` answers the size
  of the map when it settles. Callback arguments, `confirm` and `confirmRemoval` are
  modelled by whether they are set, and their continuation is the public method that
  follows.
- Concurrency is modelled only as the arbitrary order in which the environment calls the
  completion methods. Aborting a request is not modelled, because the source never aborts.
- LegacySaveControl.LegacyControlSaveTiles.SaveTiles: the older controller passes pixel
  bounds to an older `getTileUrls` that is not part of this model. The model uses the
  current layer's `getTileUrls` on the map's bounds instead, so the tiles of a legacy batch
  are those of the current layer.
- `setStorageSize` with a callback that is set but not a function is not modelled, because
  `hasCallback` means a function callback.

## Findings

| source | as written | input that shows it | evidently intended | confidence | as-written member | corrected member |
|---|---|---|---|---|---|---|
| src/GeoUtils.js:22 | the innermost MultiPolygon callback calls `coordsIntersect`, which the module never defines | `shapesIntersect({type: 'MultiPolygon', coordinates: [[[[0, 0]]]]}, anyShape)` raises a ReferenceError | call `coordsIntersectPolygon(coord3, shape2)`, as the other branches do | high; not executed | GeoUtils.MultiPolygonRaisesReferenceError | GeoUtils.CorrectedAgreesWithBundle |
| src/TileLayerOffline.js:88 | `getTileUrls` and `getTileUrlsInShapes` compute each key with `_getStorageKey` while `_url` is the zoom template, so the `{s}` offset is taken after `{z}` was replaced; `createTile` reads under the restored template | template "a{z}{s}b", subdomains ["c"], zoom 12, tile url "a12cb": saved under "a12cb", looked up under "a12cc", so the saved tile is never served | key each url under the restored template, so that the key a batch writes is the key a tile reads | medium; not executed | TileLayer.TileLayerOffline.SavedTileMissedWhenZoomPrecedesSubdomain | TileLayer.TileLayerOffline.ReadKeyedTileServed |

The layer's `getTileUrls` and `getTileUrlsInShapes`, and so the batches the controllers
save, keep the keys as written (`TilesFor`). `ReadKeyed` is the corrected keying of the same
batch. `ReadKeyedAgreesWhereSubdomainFirst` shows the two coincide for the templates the
source handles correctly, which include every template without `{s}` and every template
without `{z}`.
