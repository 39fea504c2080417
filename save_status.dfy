/**
 * What the two save controls (`src/ControlSaveTiles.js`, its copy in
 * `dist/bundle.js`, and the older `src/Control.SaveTiles.js`) share: the
 * events they fire on the layer, the errors they throw, the zoom levels a
 * batch covers and the queue of tiles it builds.
 */
module SaveStatus {
  import opened Js
  import opened TileLayer

  /** `minZoom` of `_saveTiles`: saving what you see is refused below this zoom. */
  const MinZoom: int := 5

  /** The default of the `maxZoom` option. */
  const DefaultMaxZoom: int := 19

  /** The events a control fires on its layer, by name. */
  datatype Event =
    | StorageSize     // 'storagesize'
    | SaveStart       // 'savestart'
    | LoadTileEnd     // 'loadtileend'
    | LoadEnd         // 'loadend'
    | LoadTileFailed  // 'loadtilefailed'
    | SaveTileEnd     // 'savetileend'
    | SaveEnd         // 'saveend'
    | SaveError       // 'saveerror'
    | SaveCancelled   // 'savecancelled'
    | TilesRemoved    // 'tilesremoved'

  /** What a control method throws synchronously. */
  datatype JsError =
    | ZoomBelowMinimum  // the `Error` of `_saveTiles` for a zoom below 5
    | TypeError         // `undefined.url`: a download started with nothing left to shift

  /** How the `removeItem`/`setItem` chain of `_saveTile` settles. */
  datatype SaveOutcome =
    | Stored        // both calls resolved
    | SetFailed     // the old entry was removed, `setItem` rejected
    | RemoveFailed  // `removeItem` rejected; `setItem` never ran

  /** `storagesize` is truthy: present and not 0. */
  predicate StorageSizeTruthy(storagesize: Option<nat>)
  {
    storagesize.Some? && storagesize.value > 0
  }

  function Min(a: nat, b: nat): nat
  {
    if a <= b then a else b
  }

  /**
   * The zoom levels pushed by the `for (zoom = currentZoom; zoom <= maxZoom; ...)`
   * loop: every level from `from` to `to`, ascending, none when `from > to`.
   */
  function ZoomRange(from: int, to: int): (r: seq<int>)
    ensures |r| == if from <= to then to - from + 1 else 0
    ensures forall k :: 0 <= k < |r| ==> r[k] == from + k
    decreases if to < from then 0 else to - from + 1
  {
    if to < from then [] else ZoomRange(from, to - 1) + [to]
  }

  /** The zoom levels of a batch, or the refusal to start one. */
  datatype ZoomChoice = Levels(zooms: seq<int>) | BelowMinimum

  /**
   * The zoom choice of `_saveTiles`: saving what you see starts at the map's
   * zoom, which must be at least `MinZoom`, and goes up to `maxZoom`;
   * otherwise the `zoomLevels` option when it is set, or the map's zoom alone.
   */
  function ChooseZooms(saveWhatYouSee: bool, mapZoom: int, maxZoom: int, zoomLevels: Option<seq<int>>): ZoomChoice
  {
    if saveWhatYouSee then
      if mapZoom < MinZoom then BelowMinimum else Levels(ZoomRange(mapZoom, maxZoom))
    else if zoomLevels.Some? then Levels(zoomLevels.value)
    else Levels([mapZoom])
  }

  /** The refusal happens exactly when saving what you see below `MinZoom`, and a range never leaves it. */
  lemma ChooseZoomsRefusesBelowMinimum(saveWhatYouSee: bool, mapZoom: int, maxZoom: int, zoomLevels: Option<seq<int>>)
    ensures ChooseZooms(saveWhatYouSee, mapZoom, maxZoom, zoomLevels).BelowMinimum?
        <==> saveWhatYouSee && mapZoom < MinZoom
    ensures saveWhatYouSee && MinZoom <= mapZoom ==>
              forall z :: z in ChooseZooms(saveWhatYouSee, mapZoom, maxZoom, zoomLevels).zooms
                ==> MinZoom <= mapZoom <= z <= maxZoom
  {
    if saveWhatYouSee && MinZoom <= mapZoom {
      var r := ZoomRange(mapZoom, maxZoom);
      forall z | z in r ensures mapZoom <= z <= maxZoom {
        var k :| 0 <= k < |r| && r[k] == z;
      }
    }
  }

  /** The zoom-level part of `_saveTiles`, with its loop. */
  method ZoomLevelsToSave(saveWhatYouSee: bool, mapZoom: int, maxZoom: int, zoomLevels: Option<seq<int>>)
    returns (r: ZoomChoice)
    ensures r == ChooseZooms(saveWhatYouSee, mapZoom, maxZoom, zoomLevels)
  {
    if saveWhatYouSee {
      var currentZoom := mapZoom;
      if currentZoom < MinZoom {
        return BelowMinimum;
      }
      var levels: seq<int> := [];
      var zoom := currentZoom;
      while zoom <= maxZoom
        invariant zoom == currentZoom || currentZoom <= zoom <= maxZoom + 1
        invariant levels == ZoomRange(currentZoom, zoom - 1)
      {
        levels := levels + [zoom];
        zoom := zoom + 1;
      }
      r := Levels(levels);
    } else {
      r := if zoomLevels.Some? then Levels(zoomLevels.value) else Levels([mapZoom]);
    }
  }

  /** `TilesFor` of an area under a template, as a function of the zoom level. */
  function TilesAt(build: Build, host: Host, template: string, subdomains: seq<string>,
                   source: TileSource): int -> seq<TileDescriptor>
  {
    z => TilesFor(build, host, template, subdomains, source, z)
  }

  /**
   * The queue of a batch: for each zoom level in order, what the layer
   * returns for the area at that level, concatenated.
   */
  function BatchTiles(build: Build, host: Host, template: string, subdomains: seq<string>,
                      source: TileSource, zooms: seq<int>): seq<TileDescriptor>
  {
    FlatMap(TilesAt(build, host, template, subdomains, source), zooms)
  }

  /** A descriptor is queued iff the layer lists it at one of the zoom levels. */
  lemma InBatchTiles(build: Build, host: Host, template: string, subdomains: seq<string>,
                     source: TileSource, zooms: seq<int>, d: TileDescriptor)
    ensures d in BatchTiles(build, host, template, subdomains, source, zooms)
        <==> exists z :: z in zooms && d in TilesFor(build, host, template, subdomains, source, z)
  {
    InFlatMap(TilesAt(build, host, template, subdomains, source), zooms, d);
  }

  /** The batch for the map's zoom alone is what the layer lists at that zoom. */
  lemma SingleZoomBatch(build: Build, host: Host, template: string, subdomains: seq<string>,
                        source: TileSource, zoom: int)
    ensures BatchTiles(build, host, template, subdomains, source, [zoom])
         == TilesFor(build, host, template, subdomains, source, zoom)
  {
    FlatMapSnoc(TilesAt(build, host, template, subdomains, source), [], zoom);
    assert [] + [zoom] == [zoom];
  }

  /**
   * The `for (i in zoomLevels)` loop of `_saveTiles`: the layer's
   * tiles for the area at each zoom level, concatenated in order.
   */
  method CollectTiles(layer: TileLayerOffline, zoomLevels: seq<int>, source: TileSource)
    returns (tiles: seq<TileDescriptor>)
    modifies layer
    ensures layer.url == old(layer.url)
    ensures tiles == BatchTiles(layer.build, layer.host, layer.url, layer.subdomains, source, zoomLevels)
  {
    ghost var perZoom := TilesAt(layer.build, layer.host, layer.url, layer.subdomains, source);
    tiles := [];
    var i := 0;
    while i < |zoomLevels|
      invariant 0 <= i <= |zoomLevels|
      invariant layer.url == old(layer.url)
      invariant tiles == FlatMap(perZoom, zoomLevels[..i])
    {
      var tileUrls := LayerTiles(layer, source, zoomLevels[i]);
      assert tileUrls == perZoom(zoomLevels[i]);
      tiles := tiles + tileUrls;
      FlatMapSnoc(perZoom, zoomLevels[..i], zoomLevels[i]);
      PrefixSnoc(zoomLevels, i);
      i := i + 1;
    }
    assert zoomLevels[..i] == zoomLevels;
  }

  /** One pass of that loop: `getTileUrlsInShapes` when the area is shapes, `getTileUrls` otherwise. */
  method LayerTiles(layer: TileLayerOffline, source: TileSource, zoom: int) returns (tiles: seq<TileDescriptor>)
    modifies layer
    ensures layer.url == old(layer.url)
    ensures tiles == TilesFor(layer.build, layer.host, layer.url, layer.subdomains, source, zoom)
  {
    if source.InShapes? {
      tiles := layer.GetTileUrlsInShapes(source.shapes, zoom);
    } else {
      tiles := layer.GetTileUrls(source.bounds, zoom);
    }
  }

  /** The number of entries of `s` equal to `e`. */
  function Count(s: seq<nat>, e: nat): nat
  {
    if s == [] then 0 else (if s[0] == e then 1 else 0) + Count(s[1..], e)
  }

  lemma {:induction false} CountConcat(a: seq<nat>, b: seq<nat>, e: nat)
    ensures Count(a + b, e) == Count(a, e) + Count(b, e)
  {
    if a != [] {
      CountConcat(a[1..], b, e);
      assert (a + b)[1..] == a[1..] + b;
    } else {
      assert a + b == b;
    }
  }

  lemma CountAppend(s: seq<nat>, x: nat, e: nat)
    ensures Count(s + [x], e) == Count(s, e) + (if x == e then 1 else 0)
  {
    CountConcat(s, [x], e);
  }

  /** Taking out the entry at `k` lowers the count of its value by one. */
  lemma CountRemoveAt(s: seq<nat>, k: nat, e: nat)
    requires k < |s|
    ensures Count(s[..k] + s[k + 1..], e) + (if s[k] == e then 1 else 0) == Count(s, e)
  {
    assert s == s[..k] + ([s[k]] + s[k + 1..]);
    CountConcat(s[..k], [s[k]] + s[k + 1..], e);
    CountConcat([s[k]], s[k + 1..], e);
    CountConcat(s[..k], s[k + 1..], e);
  }

  /** Taking out one entry keeps every remaining entry under a bound that held for all. */
  lemma RemoveAtKeepsBound(s: seq<nat>, k: nat, rest: seq<nat>, bound: nat)
    requires k < |s| && rest == s[..k] + s[k + 1..]
    requires forall x :: x in s ==> x <= bound
    ensures forall x :: x in rest ==> x <= bound
  {
    forall x | x in rest ensures x <= bound {
      var j :| 0 <= j < |rest| && rest[j] == x;
      if j < k {
        assert rest[j] == s[j] && s[j] in s;
      } else {
        assert rest[j] == s[j + 1] && s[j + 1] in s;
      }
    }
  }

  /** No entry equals a value above all of them. */
  lemma {:induction false} CountAbove(s: seq<nat>, e: nat)
    requires forall x :: x in s ==> x < e
    ensures Count(s, e) == 0
  {
    if s != [] {
      assert s[0] in s;
      forall x | x in s[1..] ensures x < e {
        assert x in s;
      }
      CountAbove(s[1..], e);
    }
  }
}
