/**
 * `ControlSaveTiles` (`src/ControlSaveTiles.js`, and its copy in
 * `dist/bundle.js`): the control that saves the tiles of an area for a set
 * of zoom levels, a few downloads at a time, and counts what happened in its
 * `status`.
 *
 * The asynchronous parts are methods the caller invokes in any order, one
 * per callback: `OnLoadDone` for the DONE state of a tile request,
 * `OnSaveDone` for the settled `removeItem`/`setItem` chain, `OnLengthDone`
 * for `localforage.length()` and `OnClearDone` for `localforage.clear()`.
 * Each callback reads `self.status` when it runs, so a completion of a batch
 * that was cancelled or replaced counts into the status of the current one.
 *
 * The ghost fields number the batches (`epoch`), remember which batch each
 * pending request and save belongs to, and note whether a completion of an
 * older batch has touched the current counters (`stale`). While it has not,
 * the counters balance against the queue and the pending work.
 */
module SaveControl {
  import opened Js
  import opened TileLayer
  import opened SaveStatus

  /** `status`: the counters of the current batch and its queue `_tilesforSave`. */
  datatype Status = Status(
    storagesize: Option<nat>,
    lengthToBeSaved: nat,
    lengthSaved: nat,
    lengthLoaded: nat,
    lengthProcessed: nat,
    lengthFailed: nat,
    cancelled: bool,
    tilesforSave: seq<TileDescriptor>)

  /** The prototype's `status`, before any batch: no size known, nothing queued. */
  function InitialStatus(): Status
  {
    Status(None, 0, 0, 0, 0, 0, false, [])
  }

  /**
   * The object `_resetStatus(tiles)` installs: `tiles` queued, every counter
   * 0, not cancelled, and no `storagesize` member at all.
   */
  function ResetStatus(tiles: seq<TileDescriptor>): Status
  {
    Status(None, |tiles|, 0, 0, 0, 0, false, tiles)
  }

  /**
   * The counters after the DONE state of one tile request: 200 counts as
   * loaded and processed, 400 and above as failed and processed, any other
   * status (0 for a network error, 3xx, 2xx other than 200) changes nothing.
   */
  function RecordResponse(s: Status, httpStatus: int): (r: Status)
    ensures r.lengthProcessed - r.lengthLoaded - r.lengthFailed
         == s.lengthProcessed - s.lengthLoaded - s.lengthFailed
    ensures r.lengthProcessed == s.lengthProcessed + (if httpStatus == 200 || httpStatus >= 400 then 1 else 0)
    ensures r.lengthLoaded == s.lengthLoaded + (if httpStatus == 200 then 1 else 0)
    ensures r.(lengthLoaded := s.lengthLoaded, lengthProcessed := s.lengthProcessed, lengthFailed := s.lengthFailed) == s
  {
    if httpStatus == 200 then
      s.(lengthLoaded := s.lengthLoaded + 1, lengthProcessed := s.lengthProcessed + 1)
    else if httpStatus >= 400 then
      s.(lengthProcessed := s.lengthProcessed + 1, lengthFailed := s.lengthFailed + 1)
    else s
  }

  /** The options `_saveTiles` and `_rmTiles` read; `confirm` and `confirmRemoval` say whether a callback is set. */
  datatype Options = Options(
    maxZoom: int,
    saveWhatYouSee: bool,
    bounds: Option<LatLngBounds>,
    zoomLevels: Option<seq<int>>,
    shapes: Option<ShapesArg>,
    confirm: bool,
    confirmRemoval: bool)

  /** The control's default options. */
  function DefaultOptions(): Options
  {
    Options(DefaultMaxZoom, false, None, None, None, false, false)
  }

  /** `shapes || bounds`: the shapes when set, else the bounds option, else the map's bounds. */
  function BatchSource(options: Options, mapBounds: LatLngBounds): TileSource
  {
    if options.shapes.Some? then InShapes(options.shapes.value)
    else InBounds(if options.bounds.Some? then options.bounds.value else mapBounds)
  }

  class ControlSaveTiles {
    /** Whether this is the `src/` control or the bundle's, which has the `cancelled` flag. */
    const build: Build
    /** `_baseLayer`. */
    var layer: TileLayerOffline
    var options: Options
    var status: Status
    /** The localforage database: stored blobs by key. */
    var store: map<string, Blob>
    /** Tile requests sent and not yet DONE. */
    var inFlight: seq<TileDescriptor>
    /** `_saveTile` chains not yet settled: the key and the response blob. */
    var pendingSaves: seq<(string, Blob)>
    /** `localforage.length()` calls not yet settled, with whether a callback waits on each. */
    var lengthQueries: seq<bool>
    /** `localforage.clear()` calls not yet settled. */
    var clears: nat
    /** The names of the events fired on the layer, in order. */
    ghost var events: seq<Event>
    /** The number of the current batch; every `_resetStatus` starts a new one. */
    ghost var epoch: nat
    /** The batch each in-flight request was sent for. */
    ghost var inFlightEpoch: seq<nat>
    /** The batch each pending save was started for. */
    ghost var saveEpoch: seq<nat>
    /** Requests of the current batch that ended with a status neither 200 nor 400 and above. */
    ghost var dropped: nat
    /** Saves of the current batch that settled without storing. */
    ghost var unsaved: nat
    /** A completion of an older batch has changed the current counters. */
    ghost var stale: bool

    /**
     * The invariant: processed is loaded plus failed; only the bundle's
     * control is ever cancelled, and a cancelled status has an empty queue;
     * and, unless an older batch has interfered, every tile of the batch is
     * processed, in flight, queued or dropped, and every loaded tile is
     * saved, being saved or unsaved.
     */
    ghost predicate Valid()
      reads this`status, this`inFlight, this`pendingSaves, this`epoch, this`inFlightEpoch, this`saveEpoch,
            this`dropped, this`unsaved, this`stale
    {
      Accounts(0, 0)
    }

    /**
     * `Valid`, for a moment when `answeredLoads` requests and `answeredSaves`
     * saves of the current batch have settled but are not counted yet.
     */
    ghost predicate Accounts(answeredLoads: nat, answeredSaves: nat)
      reads this`status, this`inFlight, this`pendingSaves, this`epoch, this`inFlightEpoch, this`saveEpoch,
            this`dropped, this`unsaved, this`stale
    {
      && status.lengthProcessed == status.lengthLoaded + status.lengthFailed
      && (build == Src ==> !status.cancelled)
      && (status.cancelled ==> status.tilesforSave == [])
      && |inFlightEpoch| == |inFlight|
      && |saveEpoch| == |pendingSaves|
      && (forall e :: e in inFlightEpoch ==> e <= epoch)
      && (forall e :: e in saveEpoch ==> e <= epoch)
      && (!stale ==> status.lengthProcessed + Count(inFlightEpoch, epoch) + answeredLoads
                     + |status.tilesforSave| + dropped == status.lengthToBeSaved)
      && (!stale ==> status.lengthSaved + Count(saveEpoch, epoch) + answeredSaves + unsaved
                     == status.lengthLoaded)
    }

    /** `initialize`: keeps the layer and options and asks the store for its size (`setStorageSize()`). */
    constructor(build: Build, layer: TileLayerOffline, options: Options, store: map<string, Blob>)
      ensures Valid()
      ensures this.build == build && this.layer == layer && this.options == options && this.store == store
      ensures status == InitialStatus() && inFlight == [] && pendingSaves == [] && clears == 0
      ensures lengthQueries == [false] && events == []
    {
      this.build := build;
      this.layer := layer;
      this.options := options;
      this.store := store;
      status := InitialStatus();
      inFlight := [];
      pendingSaves := [];
      lengthQueries := [false];
      clears := 0;
      events := [];
      epoch := 0;
      inFlightEpoch := [];
      saveEpoch := [];
      dropped := 0;
      unsaved := 0;
      stale := false;
    }

    /**
     * `setStorageSize(callback)` (and `getStorageSize`): a callback is
     * answered at once with a truthy known size; otherwise the store is asked.
     */
    method SetStorageSize(hasCallback: bool) returns (answer: Option<nat>)
      modifies this`lengthQueries
      ensures answer.Some? <==> StorageSizeTruthy(status.storagesize) && hasCallback
      ensures answer.Some? ==> answer == status.storagesize && lengthQueries == old(lengthQueries)
      ensures answer.None? ==> lengthQueries == old(lengthQueries) + [hasCallback]
    {
      if StorageSizeTruthy(status.storagesize) && hasCallback {
        answer := status.storagesize;
      } else {
        lengthQueries := lengthQueries + [hasCallback];
        answer := None;
      }
    }

    /**
     * `localforage.length()` settles for query `k`: on success the size is
     * recorded, 'storagesize' fires and a waiting callback gets the size; on
     * failure a waiting callback gets 0 and the promise rejects.
     */
    method OnLengthDone(k: nat, ok: bool) returns (callbackArg: Option<nat>, rejected: bool)
      requires Valid()
      requires k < |lengthQueries|
      modifies this`lengthQueries, this`status, this`events
      ensures Valid()
      ensures lengthQueries == old(lengthQueries[..k] + lengthQueries[k + 1..])
      ensures ok ==> && status == old(status).(storagesize := Some(|store|))
                     && events == old(events) + [StorageSize]
                     && callbackArg == (if old(lengthQueries[k]) then Some(|store|) else None)
                     && !rejected
      ensures !ok ==> && status == old(status) && events == old(events)
                      && callbackArg == (if old(lengthQueries[k]) then Some(0) else None)
                      && rejected
    {
      var hasCallback := lengthQueries[k];
      lengthQueries := lengthQueries[..k] + lengthQueries[k + 1..];
      if ok {
        var numberOfKeys := |store|;
        status := status.(storagesize := Some(numberOfKeys));
        events := events + [StorageSize];
        callbackArg := if hasCallback then Some(numberOfKeys) else None;
        rejected := false;
      } else {
        callbackArg := if hasCallback then Some(0) else None;
        rejected := true;
      }
    }

    /** `setLayer`. */
    method SetLayer(l: TileLayerOffline)
      modifies this`layer
      ensures layer == l
    {
      layer := l;
    }

    /** `setBounds`. */
    method SetBounds(bounds: LatLngBounds)
      modifies this`options
      ensures options == old(options).(bounds := Some(bounds))
    {
      options := options.(bounds := Some(bounds));
    }

    /** `setShapes`, which only the bundle's control has. */
    method SetShapes(shapes: ShapesArg)
      requires build == Dist
      modifies this`options
      ensures options == old(options).(shapes := Some(shapes))
    {
      options := options.(shapes := Some(shapes));
    }

    /** `setSaveWhatYouSee`. */
    method SetSaveWhatYouSee(saveWhatYouSee: bool)
      modifies this`options
      ensures options == old(options).(saveWhatYouSee := saveWhatYouSee)
    {
      options := options.(saveWhatYouSee := saveWhatYouSee);
    }

    /** `setMaxZoom`. */
    method SetMaxZoom(zoom: int)
      modifies this`options
      ensures options == old(options).(maxZoom := zoom)
    {
      options := options.(maxZoom := zoom);
    }

    /** `setzoomLevels`. */
    method SetZoomLevels(zoomLevels: seq<int>)
      modifies this`options
      ensures options == old(options).(zoomLevels := Some(zoomLevels))
    {
      options := options.(zoomLevels := Some(zoomLevels));
    }

    /** `_resetStatus(tiles)`: a new batch with `tiles` queued. */
    method ResetBatch(tiles: seq<TileDescriptor>)
      requires Valid()
      modifies this`status, this`epoch, this`stale, this`dropped, this`unsaved
      ensures Valid()
      ensures status == ResetStatus(tiles) && epoch == old(epoch) + 1 && !stale
    {
      status := ResetStatus(tiles);
      epoch := epoch + 1;
      stale := false;
      dropped := 0;
      unsaved := 0;
      CountAbove(inFlightEpoch, epoch);
      CountAbove(saveEpoch, epoch);
    }

    /**
     * `_loadTile`: the bundle's control does nothing once cancelled;
     * otherwise the head of the queue is shifted off and requested, and an
     * empty queue makes `tileUrl.url` throw.
     */
    method LoadTile() returns (raised: Option<JsError>)
      requires Valid()
      modifies this`status, this`inFlight, this`inFlightEpoch
      ensures Valid()
      ensures if build == Dist && old(status.cancelled) then
                raised == None && status == old(status) && inFlight == old(inFlight)
              else if old(status.tilesforSave) == [] then
                raised == Some(TypeError) && status == old(status) && inFlight == old(inFlight)
              else
                && raised == None
                && status == old(status).(tilesforSave := old(status.tilesforSave[1..]))
                && inFlight == old(inFlight) + [old(status.tilesforSave[0])]
    {
      if build == Dist && status.cancelled {
        return None;
      }
      if status.tilesforSave == [] {
        return Some(TypeError);
      }
      var tileUrl := status.tilesforSave[0];
      status := status.(tilesforSave := status.tilesforSave[1..]);
      CountAppend(inFlightEpoch, epoch, epoch);
      inFlight := inFlight + [tileUrl];
      inFlightEpoch := inFlightEpoch + [epoch];
      raised := None;
    }

    /**
     * The `successCallback` of `_saveTiles`: fires 'savestart', then starts
     * `getSimultaneous()` downloads; it stops at the first one that throws.
     */
    method StartSave() returns (raised: Option<JsError>)
      requires Valid()
      modifies this`status, this`inFlight, this`inFlightEpoch, this`events
      ensures Valid()
      ensures events == old(events) + [SaveStart]
      ensures var q := old(status.tilesforSave);
              var n := layer.GetSimultaneous();
              if build == Dist && old(status.cancelled) then
                raised == None && status == old(status) && inFlight == old(inFlight)
              else
                && (raised == Some(TypeError) <==> n > |q|)
                && (raised.None? || raised == Some(TypeError))
                && status == old(status).(tilesforSave := q[Min(n, |q|)..])
                && inFlight == old(inFlight) + q[..Min(n, |q|)]
    {
      events := events + [SaveStart];
      var subdLength := layer.GetSimultaneous();
      ghost var q := status.tilesforSave;
      var i := 0;
      while i < subdLength
        invariant 0 <= i <= subdLength
        invariant Valid()
        invariant events == old(events) + [SaveStart]
        invariant if build == Dist && old(status.cancelled) then
                    status == old(status) && inFlight == old(inFlight)
                  else
                    i <= |q| && status == old(status).(tilesforSave := q[i..]) && inFlight == old(inFlight) + q[..i]
      {
        var r := LoadTile();
        if r.Some? {
          assert q[..i] == q;
          return r;
        }
        if !(build == Dist && old(status.cancelled)) {
          assert q[..i + 1] == q[..i] + [q[i]];
        }
        i := i + 1;
      }
      raised := None;
    }

    /**
     * `_saveTiles`: refuses to save what you see below zoom 5; otherwise
     * queues, zoom level by zoom level, the layer's tiles for the shapes or
     * the bounds, starts a new batch, and starts the downloads at once unless
     * a `confirm` callback is set (which is handed the continuation,
     * `StartSave`).
     */
    method SaveTiles(mapZoom: int, mapBounds: LatLngBounds) returns (raised: Option<JsError>)
      requires Valid()
      modifies this`status, this`inFlight, this`inFlightEpoch, this`events, this`epoch, this`stale,
               this`dropped, this`unsaved, layer
      ensures Valid()
      ensures layer.url == old(layer.url)
      ensures var choice := ChooseZooms(options.saveWhatYouSee, mapZoom, options.maxZoom, options.zoomLevels);
              choice.BelowMinimum? ==>
                raised == Some(ZoomBelowMinimum) && status == old(status) && inFlight == old(inFlight)
                && events == old(events)
      ensures var choice := ChooseZooms(options.saveWhatYouSee, mapZoom, options.maxZoom, options.zoomLevels);
              choice.Levels? ==>
                var queue := BatchTiles(layer.build, layer.host, layer.url, layer.subdomains,
                                        BatchSource(options, mapBounds), choice.zooms);
                var n := layer.GetSimultaneous();
                && !stale && epoch == old(epoch) + 1
                && (options.confirm ==>
                      raised == None && status == ResetStatus(queue) && inFlight == old(inFlight)
                      && events == old(events))
                && (!options.confirm ==>
                      && (raised == Some(TypeError) <==> n > |queue|)
                      && (raised.None? || raised == Some(TypeError))
                      && status == ResetStatus(queue).(tilesforSave := queue[Min(n, |queue|)..])
                      && inFlight == old(inFlight) + queue[..Min(n, |queue|)]
                      && events == old(events) + [SaveStart])
    {
      var choice := ZoomLevelsToSave(options.saveWhatYouSee, mapZoom, options.maxZoom, options.zoomLevels);
      if choice.BelowMinimum? {
        return Some(ZoomBelowMinimum);
      }
      var zoomLevels := choice.zooms;
      var tiles := CollectTiles(layer, zoomLevels, BatchSource(options, mapBounds));
      raised := StartBatch(tiles);
    }

    /**
     * The end of `_saveTiles`: `_resetStatus(tiles)`, then the downloads
     * start at once unless a `confirm` callback is set.
     */
    method StartBatch(tiles: seq<TileDescriptor>) returns (raised: Option<JsError>)
      requires Valid()
      modifies this`status, this`inFlight, this`inFlightEpoch, this`events, this`epoch, this`stale,
               this`dropped, this`unsaved
      ensures Valid()
      ensures var n := layer.GetSimultaneous();
              && !stale && epoch == old(epoch) + 1
              && (options.confirm ==>
                    raised == None && status == ResetStatus(tiles) && inFlight == old(inFlight)
                    && events == old(events))
              && (!options.confirm ==>
                    && (raised == Some(TypeError) <==> n > |tiles|)
                    && (raised.None? || raised == Some(TypeError))
                    && status == ResetStatus(tiles).(tilesforSave := tiles[Min(n, |tiles|)..])
                    && inFlight == old(inFlight) + tiles[..Min(n, |tiles|)]
                    && events == old(events) + [SaveStart])
    {
      ResetBatch(tiles);
      if options.confirm {
        raised := None;
      } else {
        raised := StartSave();
      }
    }

    /**
     * `cancel`: fires 'savecancelled' and starts an empty batch; the bundle's
     * control also marks it cancelled, so that no further download starts.
     */
    method Cancel()
      requires Valid()
      modifies this`status, this`events, this`epoch, this`stale, this`dropped, this`unsaved
      ensures Valid()
      ensures events == old(events) + [SaveCancelled]
      ensures status == ResetStatus([]).(cancelled := build == Dist)
    {
      events := events + [SaveCancelled];
      ResetBatch([]);
      if build == Dist {
        status := status.(cancelled := true);
      }
    }

    /** `_saveTile(key, blob)`: starts removing the old entry, then storing the blob. */
    method SaveTile(key: string, blob: Blob, ghost requestEpoch: nat)
      modifies this`pendingSaves, this`saveEpoch
      ensures pendingSaves == old(pendingSaves) + [(key, blob)]
      ensures saveEpoch == old(saveEpoch) + [requestEpoch]
    {
      pendingSaves := pendingSaves + [(key, blob)];
      saveEpoch := saveEpoch + [requestEpoch];
    }

    /**
     * In-flight request `k` reached DONE: it leaves the in-flight list.
     * Until its status is counted, it is the one answered request the
     * accounts are short of, when it belongs to the current batch.
     */
    method TakeRequest(k: nat) returns (tile: TileDescriptor, ghost requestEpoch: nat)
      requires Valid()
      requires k < |inFlight|
      modifies this`inFlight, this`inFlightEpoch
      ensures Accounts(if requestEpoch == epoch then 1 else 0, 0)
      ensures requestEpoch <= epoch
      ensures tile == old(inFlight[k]) && inFlight == old(inFlight[..k] + inFlight[k + 1..])
    {
      tile := inFlight[k];
      requestEpoch := inFlightEpoch[k];
      assert requestEpoch <= epoch by {
        assert inFlightEpoch[k] in inFlightEpoch;
      }
      CountRemoveAt(inFlightEpoch, k, epoch);
      RemoveAtKeepsBound(inFlightEpoch, k, inFlightEpoch[..k] + inFlightEpoch[k + 1..], epoch);
      inFlight := inFlight[..k] + inFlight[k + 1..];
      inFlightEpoch := inFlightEpoch[..k] + inFlightEpoch[k + 1..];
    }

    /**
     * The 200 branch of the DONE handler: the tile counts as loaded and
     * processed and is saved; the next download starts if the queue is not
     * empty, else 'loadend' fires once every tile is processed.
     */
    method TileLoaded(tile: TileDescriptor, response: Blob, ghost requestEpoch: nat)
      requires Accounts(if requestEpoch == epoch then 1 else 0, 0)
      requires requestEpoch <= epoch
      modifies this`status, this`inFlight, this`inFlightEpoch, this`pendingSaves, this`saveEpoch,
               this`events, this`stale
      ensures Valid()
      ensures pendingSaves == old(pendingSaves) + [(tile.key, response)]
      ensures var counted := RecordResponse(old(status), 200);
              var q := counted.tilesforSave;
              && (q != [] ==>
                    status == counted.(tilesforSave := q[1..]) && inFlight == old(inFlight) + [q[0]]
                    && events == old(events) + [LoadTileEnd])
              && (q == [] ==>
                    status == counted && inFlight == old(inFlight)
                    && events == old(events) + [LoadTileEnd]
                                 + (if counted.lengthProcessed == counted.lengthToBeSaved then [LoadEnd] else []))
      ensures LoadEnd in events[|old(events)|..] ==>
                && status.tilesforSave == [] && status.lengthProcessed == status.lengthToBeSaved
                && (!stale ==> Count(inFlightEpoch, epoch) == 0 && dropped == 0)
    {
      CountLoaded(tile, response, requestEpoch);
      if |status.tilesforSave| > 0 {
        var ignored := LoadTile();
        events := events + [LoadTileEnd];
      } else {
        events := events + [LoadTileEnd];
        if status.lengthProcessed == status.lengthToBeSaved {
          events := events + [LoadEnd];
          AllProcessed();
        }
      }
    }

    /** The counting part of the 200 branch: loaded and processed go up, and the response is saved. */
    method CountLoaded(tile: TileDescriptor, response: Blob, ghost requestEpoch: nat)
      requires Accounts(if requestEpoch == epoch then 1 else 0, 0)
      requires requestEpoch <= epoch
      modifies this`status, this`pendingSaves, this`saveEpoch, this`stale
      ensures Valid()
      ensures status == RecordResponse(old(status), 200)
      ensures pendingSaves == old(pendingSaves) + [(tile.key, response)]
    {
      status := RecordResponse(status, 200);
      stale := stale || requestEpoch != epoch;
      CountAppend(saveEpoch, requestEpoch, epoch);
      SaveTile(tile.key, response, requestEpoch);
    }

    /** With every tile processed and none queued, nothing of the batch is in flight or dropped. */
    lemma AllProcessed()
      requires Valid()
      requires status.tilesforSave == [] && status.lengthProcessed == status.lengthToBeSaved
      ensures !stale ==> Count(inFlightEpoch, epoch) == 0 && dropped == 0
    {
    }

    /**
     * The 400-and-above branch of the DONE handler: the tile counts as
     * failed and processed, 'loadtilefailed' fires, and the next download
     * starts if the queue is not empty.
     */
    method TileFailed(ghost requestEpoch: nat)
      requires Accounts(if requestEpoch == epoch then 1 else 0, 0)
      modifies this`status, this`inFlight, this`inFlightEpoch, this`events, this`stale
      ensures Valid()
      ensures var counted := RecordResponse(old(status), 400);
              var q := counted.tilesforSave;
              && (q != [] ==>
                    status == counted.(tilesforSave := q[1..]) && inFlight == old(inFlight) + [q[0]]
                    && events == old(events) + [LoadTileFailed, LoadTileEnd])
              && (q == [] ==>
                    status == counted && inFlight == old(inFlight) && events == old(events) + [LoadTileFailed])
    {
      CountFailed(requestEpoch);
      events := events + [LoadTileFailed];
      if |status.tilesforSave| > 0 {
        var ignored := LoadTile();
        events := events + [LoadTileEnd];
      }
    }

    /** The counting part of the 400-and-above branch: failed and processed go up. */
    method CountFailed(ghost requestEpoch: nat)
      requires Accounts(if requestEpoch == epoch then 1 else 0, 0)
      modifies this`status, this`stale
      ensures Valid()
      ensures status == RecordResponse(old(status), 400)
    {
      status := RecordResponse(status, 400);
      stale := stale || requestEpoch != epoch;
    }

    /**
     * The DONE state of in-flight request `k`, with the HTTP status and the
     * response: 200 is `TileLoaded`, 400 and above `TileFailed`, and any
     * other status changes nothing and starts nothing, so the batch never
     * reaches 'loadend'.
     */
    method OnLoadDone(k: nat, httpStatus: int, response: Blob)
      requires Valid()
      requires k < |inFlight|
      modifies this`status, this`inFlight, this`inFlightEpoch, this`pendingSaves, this`saveEpoch,
               this`events, this`dropped, this`stale
      ensures Valid()
      ensures var tile := old(inFlight[k]);
              var rest := old(inFlight[..k] + inFlight[k + 1..]);
              var counted := RecordResponse(old(status), httpStatus);
              var q := counted.tilesforSave;
              && pendingSaves == old(pendingSaves) + (if httpStatus == 200 then [(tile.key, response)] else [])
              && (httpStatus == 200 || httpStatus >= 400 ==>
                    if q != [] then
                      status == counted.(tilesforSave := q[1..]) && inFlight == rest + [q[0]]
                    else
                      status == counted && inFlight == rest)
              && (httpStatus == 200 ==>
                    events == old(events) + [LoadTileEnd]
                              + (if q == [] && counted.lengthProcessed == counted.lengthToBeSaved then [LoadEnd] else []))
              && (httpStatus >= 400 ==>
                    events == old(events) + [LoadTileFailed] + (if q != [] then [LoadTileEnd] else []))
              && (httpStatus != 200 && httpStatus < 400 ==>
                    status == old(status) && inFlight == rest && events == old(events))
    /** 'loadend' means the batch has no tile left to process. */
      ensures LoadEnd in events[|old(events)|..] ==>
                && httpStatus == 200 && status.tilesforSave == []
                && status.lengthProcessed == status.lengthToBeSaved
                && (!stale ==> Count(inFlightEpoch, epoch) == 0 && dropped == 0)
    {
      var tileUrl, requestEpoch := TakeRequest(k);
      if httpStatus == 200 {
        TileLoaded(tileUrl, response, requestEpoch);
      } else if httpStatus >= 400 {
        TileFailed(requestEpoch);
      } else {
        CountDropped(requestEpoch);
      }
    }

    /** A request of the current batch that ended with any other status is dropped: nothing counts it. */
    method CountDropped(ghost requestEpoch: nat)
      requires Accounts(if requestEpoch == epoch then 1 else 0, 0)
      modifies this`dropped
      ensures Valid()
    {
      if requestEpoch == epoch {
        dropped := dropped + 1;
      }
    }

    /**
     * Pending save `k` settled: it leaves the pending list. Until it is
     * counted, it is the one answered save the accounts are short of, when
     * it belongs to the current batch.
     */
    method TakeSave(k: nat) returns (key: string, blob: Blob, ghost requestEpoch: nat)
      requires Valid()
      requires k < |pendingSaves|
      modifies this`pendingSaves, this`saveEpoch
      ensures Accounts(0, if requestEpoch == epoch then 1 else 0)
      ensures (key, blob) == old(pendingSaves[k]) && pendingSaves == old(pendingSaves[..k] + pendingSaves[k + 1..])
    {
      key, blob := pendingSaves[k].0, pendingSaves[k].1;
      requestEpoch := saveEpoch[k];
      CountRemoveAt(saveEpoch, k, epoch);
      RemoveAtKeepsBound(saveEpoch, k, saveEpoch[..k] + saveEpoch[k + 1..], epoch);
      pendingSaves := pendingSaves[..k] + pendingSaves[k + 1..];
      saveEpoch := saveEpoch[..k] + saveEpoch[k + 1..];
    }

    /**
     * A save stored its blob: it counts as saved and 'savetileend' fires;
     * when every tile of the batch is saved, 'saveend' fires and the store
     * is asked for its size.
     */
    method TileStored(key: string, blob: Blob, ghost requestEpoch: nat)
      requires Accounts(0, if requestEpoch == epoch then 1 else 0)
      modifies this`status, this`store, this`events, this`stale, this`lengthQueries
      ensures Valid()
      ensures var saved := old(status.lengthSaved) + 1;
              && store == old(store)[key := blob]
              && status == old(status).(lengthSaved := saved)
              && events == old(events) + [SaveTileEnd] + (if saved == status.lengthToBeSaved then [SaveEnd] else [])
              && lengthQueries == old(lengthQueries) + (if saved == status.lengthToBeSaved then [false] else [])
    {
      store := store[key := blob];
      CountSaved(requestEpoch);
      AnnounceSaved();
    }

    /** `lengthSaved++` for a save of batch `requestEpoch`: the accounts balance again. */
    method CountSaved(ghost requestEpoch: nat)
      requires Accounts(0, if requestEpoch == epoch then 1 else 0)
      modifies this`status, this`stale
      ensures Valid()
      ensures status == old(status).(lengthSaved := old(status.lengthSaved) + 1)
    {
      status := status.(lengthSaved := status.lengthSaved + 1);
      stale := stale || requestEpoch != epoch;
    }

    /** The events after a stored tile: 'savetileend', then 'saveend' and a size query once all are saved. */
    method AnnounceSaved()
      modifies this`events, this`lengthQueries
      ensures events == old(events) + [SaveTileEnd]
                        + (if status.lengthSaved == status.lengthToBeSaved then [SaveEnd] else [])
      ensures lengthQueries == old(lengthQueries)
                               + (if status.lengthSaved == status.lengthToBeSaved then [false] else [])
    {
      events := events + [SaveTileEnd];
      if status.lengthSaved == status.lengthToBeSaved {
        events := events + [SaveEnd];
        var ignored := SetStorageSize(false);
      }
    }

    /**
     * The `_saveTile` chain of pending save `k` settles: a stored blob is
     * `TileStored`; a failed `setItem` fires 'saveerror' (the old entry is
     * already gone); a failed `removeItem` changes nothing.
     */
    method OnSaveDone(k: nat, outcome: SaveOutcome)
      requires Valid()
      requires k < |pendingSaves|
      modifies this`status, this`pendingSaves, this`saveEpoch, this`store, this`events, this`unsaved,
               this`stale, this`lengthQueries
      ensures Valid()
      ensures pendingSaves == old(pendingSaves[..k] + pendingSaves[k + 1..])
      ensures var (key, blob) := old(pendingSaves[k]);
              && (outcome == RemoveFailed ==>
                    store == old(store) && status == old(status) && events == old(events)
                    && lengthQueries == old(lengthQueries))
              && (outcome == SetFailed ==>
                    store == old(store) - {key} && status == old(status) && events == old(events) + [SaveError]
                    && lengthQueries == old(lengthQueries))
              && (outcome == Stored ==>
                    var saved := old(status.lengthSaved) + 1;
                    && store == old(store)[key := blob]
                    && status == old(status).(lengthSaved := saved)
                    && events == old(events) + [SaveTileEnd]
                                 + (if saved == status.lengthToBeSaved then [SaveEnd] else [])
                    && lengthQueries == old(lengthQueries)
                                        + (if saved == status.lengthToBeSaved then [false] else []))
    /** 'saveend' means, unless an older batch interfered, that every tile was downloaded and stored. */
      ensures SaveEnd in events[|old(events)|..] ==>
                && outcome == Stored && status.lengthSaved == status.lengthToBeSaved
                && (!stale ==>
                      && status.lengthLoaded == status.lengthToBeSaved && status.lengthFailed == 0
                      && status.tilesforSave == [] && dropped == 0 && unsaved == 0
                      && Count(inFlightEpoch, epoch) == 0 && Count(saveEpoch, epoch) == 0)
    {
      var key, blob, requestEpoch := TakeSave(k);
      if outcome == Stored {
        TileStored(key, blob, requestEpoch);
        if status.lengthSaved == status.lengthToBeSaved {
          AllSaved();
        }
      } else {
        NotStored(key, outcome, requestEpoch);
      }
    }

    /**
     * A `_saveTile` chain that did not store: after a failed `setItem` the
     * old entry is gone and 'saveerror' fires; a save of the current batch
     * counts as unsaved.
     */
    method NotStored(key: string, outcome: SaveOutcome, ghost requestEpoch: nat)
      requires outcome != Stored
      requires Accounts(0, if requestEpoch == epoch then 1 else 0)
      modifies this`store, this`events, this`unsaved
      ensures Valid()
      ensures store == if outcome == SetFailed then old(store) - {key} else old(store)
      ensures events == old(events) + if outcome == SetFailed then [SaveError] else []
    {
      if outcome == SetFailed {
        store := store - {key};
        events := events + [SaveError];
      }
      if requestEpoch == epoch {
        unsaved := unsaved + 1;
      }
    }

    /** With every tile saved, unless an older batch interfered, every tile was loaded and nothing is outstanding. */
    lemma AllSaved()
      requires Valid()
      requires status.lengthSaved == status.lengthToBeSaved
      ensures !stale ==>
                && status.lengthLoaded == status.lengthToBeSaved && status.lengthFailed == 0
                && status.tilesforSave == [] && dropped == 0 && unsaved == 0
                && Count(inFlightEpoch, epoch) == 0 && Count(saveEpoch, epoch) == 0
    {
    }

    /**
     * `_rmTiles`: clears the store at once, unless a `confirmRemoval`
     * callback is set (which is handed the continuation, `ClearTiles`).
     */
    method RmTiles()
      modifies this`clears
      ensures clears == old(clears) + (if options.confirmRemoval then 0 else 1)
    {
      if !options.confirmRemoval {
        ClearTiles();
      }
    }

    /** The `successCallback` of `_rmTiles`: `localforage.clear()`. */
    method ClearTiles()
      modifies this`clears
      ensures clears == old(clears) + 1
    {
      clears := clears + 1;
    }

    /**
     * A `localforage.clear()` settles: on success the store is empty, the
     * size is 0 and 'tilesremoved' and 'storagesize' fire; a failure is not
     * caught and changes nothing.
     */
    method OnClearDone(ok: bool)
      requires Valid()
      requires clears > 0
      modifies this`clears, this`store, this`status, this`events
      ensures Valid()
      ensures clears == old(clears) - 1
      ensures ok ==> && store == map[] && status == old(status).(storagesize := Some(0))
                     && events == old(events) + [TilesRemoved, StorageSize]
      ensures !ok ==> store == old(store) && status == old(status) && events == old(events)
    {
      clears := clears - 1;
      if ok {
        store := map[];
        status := status.(storagesize := Some(0));
        events := events + [TilesRemoved, StorageSize];
      }
    }
  }
}
