/**
 * `L.Control.SaveTiles` (`src/Control.SaveTiles.js`): the older save
 * control. Its batch has no processed or failed counters and no
 * cancellation; a download counts only when it ends with status 200; the
 * zoom levels are the `zoomlevels` option or the map's zoom; the area is
 * always the map's bounds; a failed save fires nothing; and `_rmTiles`
 * clears the store without asking.
 *
 * The asynchronous callbacks and the ghost bookkeeping follow `SaveControl`.
 */
module LegacySaveControl {
  import opened Js
  import opened TileLayer
  import opened SaveStatus

  /** `status` of the older control. */
  datatype LegacyStatus = LegacyStatus(
    storagesize: Option<nat>,
    lengthToBeSaved: nat,
    lengthSaved: nat,
    lengthLoaded: nat,
    tilesforSave: seq<TileDescriptor>)

  /** `_resetStatus(tiles)`: `tiles` queued, every counter 0, no `storagesize`. */
  function ResetStatus(tiles: seq<TileDescriptor>): LegacyStatus
  {
    LegacyStatus(None, |tiles|, 0, 0, tiles)
  }

  /** The options `_saveTiles` reads: `zoomlevels`, and whether a `confirm` callback is set. */
  datatype LegacyOptions = LegacyOptions(zoomlevels: Option<seq<int>>, confirm: bool)

  /** `this.options.zoomlevels || [this._map.getZoom()]`. */
  function LegacyZooms(options: LegacyOptions, mapZoom: int): (r: seq<int>)
    ensures options.zoomlevels.None? ==> r == [mapZoom]
    ensures options.zoomlevels.Some? ==> r == options.zoomlevels.value
  {
    if options.zoomlevels.Some? then options.zoomlevels.value else [mapZoom]
  }

  class LegacyControlSaveTiles {
    /** `_baseLayer`. */
    var layer: TileLayerOffline
    var options: LegacyOptions
    var status: LegacyStatus
    /** The localforage database: stored blobs by key. */
    var store: map<string, Blob>
    /** Tile requests sent and not yet DONE. */
    var inFlight: seq<TileDescriptor>
    /** `_saveTile` chains not yet settled: the key and the response blob. */
    var pendingSaves: seq<(string, Blob)>
    /** `localforage.length()` calls not yet settled, with whether a callback waits on each. */
    var lengthQueries: seq<bool>
    /** `localforage.clear()` calls not yet settled. */
    var clears: nat
    /** The names of the events fired on the layer, in order. */
    ghost var events: seq<Event>
    /** The number of the current batch. */
    ghost var epoch: nat
    /** The batch each in-flight request was sent for. */
    ghost var inFlightEpoch: seq<nat>
    /** The batch each pending save was started for. */
    ghost var saveEpoch: seq<nat>
    /** Requests of the current batch that ended with a status other than 200. */
    ghost var dropped: nat
    /** Saves of the current batch that settled without storing. */
    ghost var unsaved: nat
    /** A completion of an older batch has changed the current counters. */
    ghost var stale: bool

    /**
     * The invariant: unless an older batch has interfered, every tile of the
     * batch is loaded, in flight, queued or dropped, and every loaded tile is
     * saved, being saved or unsaved.
     */
    ghost predicate Valid()
      reads this`status, this`inFlight, this`pendingSaves, this`epoch, this`inFlightEpoch, this`saveEpoch,
            this`dropped, this`unsaved, this`stale
    {
      Accounts(0, 0)
    }

    /**
     * `Valid`, for a moment when `answeredLoads` tiles of the batch are out
     * of the queue but neither in flight nor counted (shifted, or answered),
     * and `answeredSaves` saves have settled but are not counted.
     */
    ghost predicate Accounts(answeredLoads: nat, answeredSaves: nat)
      reads this`status, this`inFlight, this`pendingSaves, this`epoch, this`inFlightEpoch, this`saveEpoch,
            this`dropped, this`unsaved, this`stale
    {
      && |inFlightEpoch| == |inFlight|
      && |saveEpoch| == |pendingSaves|
      && (forall e :: e in inFlightEpoch ==> e <= epoch)
      && (forall e :: e in saveEpoch ==> e <= epoch)
      && (!stale ==> status.lengthLoaded + Count(inFlightEpoch, epoch) + answeredLoads
                     + |status.tilesforSave| + dropped == status.lengthToBeSaved)
      && (!stale ==> status.lengthSaved + Count(saveEpoch, epoch) + answeredSaves + unsaved
                     == status.lengthLoaded)
    }

    /** `initialize`: keeps the layer and options and asks the store for its size (`setStorageSize()`). */
    constructor(layer: TileLayerOffline, options: LegacyOptions, store: map<string, Blob>)
      ensures Valid()
      ensures this.layer == layer && this.options == options && this.store == store
      ensures status == LegacyStatus(None, 0, 0, 0, []) && inFlight == [] && pendingSaves == []
      ensures lengthQueries == [false] && clears == 0 && events == []
    {
      this.layer := layer;
      this.options := options;
      this.store := store;
      status := LegacyStatus(None, 0, 0, 0, []);
      inFlight := [];
      pendingSaves := [];
      lengthQueries := [false];
      clears := 0;
      events := [];
      epoch := 0;
      inFlightEpoch := [];
      saveEpoch := [];
      dropped := 0;
      unsaved := 0;
      stale := false;
    }

    /**
     * `setStorageSize(callback)` (and `getStorageSize`): a truthy known size
     * goes to the callback at once, and without a callback that call throws;
     * otherwise the store is asked.
     */
    method SetStorageSize(hasCallback: bool) returns (answer: Option<nat>, raised: Option<JsError>)
      modifies this`lengthQueries
      ensures raised == (if StorageSizeTruthy(status.storagesize) && !hasCallback then Some(TypeError) else None)
      ensures answer.Some? <==> StorageSizeTruthy(status.storagesize) && hasCallback
      ensures answer.Some? ==> answer == status.storagesize
      ensures lengthQueries == old(lengthQueries)
                               + (if StorageSizeTruthy(status.storagesize) then [] else [hasCallback])
    {
      if StorageSizeTruthy(status.storagesize) {
        if hasCallback {
          answer, raised := status.storagesize, None;
        } else {
          answer, raised := None, Some(TypeError);
        }
      } else {
        lengthQueries := lengthQueries + [hasCallback];
        answer, raised := None, None;
      }
    }

    /**
     * `localforage.length()` settles for query `k`: on success the size is
     * recorded, 'storagesize' fires and a waiting callback gets the size; a
     * failure is not caught and changes nothing.
     */
    method OnLengthDone(k: nat, ok: bool) returns (callbackArg: Option<nat>)
      requires Valid()
      requires k < |lengthQueries|
      modifies this`lengthQueries, this`status, this`events
      ensures Valid()
      ensures lengthQueries == old(lengthQueries[..k] + lengthQueries[k + 1..])
      ensures ok ==> && status == old(status).(storagesize := Some(|store|))
                     && events == old(events) + [StorageSize]
                     && callbackArg == (if old(lengthQueries[k]) then Some(|store|) else None)
      ensures !ok ==> status == old(status) && events == old(events) && callbackArg == None
    {
      var hasCallback := lengthQueries[k];
      lengthQueries := lengthQueries[..k] + lengthQueries[k + 1..];
      callbackArg := None;
      if ok {
        var numberOfKeys := |store|;
        status := status.(storagesize := Some(numberOfKeys));
        events := events + [StorageSize];
        if hasCallback {
          callbackArg := Some(numberOfKeys);
        }
      }
    }

    /** `setLayer`. */
    method SetLayer(l: TileLayerOffline)
      modifies this`layer
      ensures layer == l
    {
      layer := l;
    }

    /** `_resetStatus(tiles)`: a new batch with `tiles` queued. */
    method ResetBatch(tiles: seq<TileDescriptor>)
      requires Valid()
      modifies this`status, this`epoch, this`stale, this`dropped, this`unsaved
      ensures Valid()
      ensures status == ResetStatus(tiles) && epoch == old(epoch) + 1 && !stale
    {
      status := ResetStatus(tiles);
      epoch := epoch + 1;
      stale := false;
      dropped := 0;
      unsaved := 0;
      CountAbove(inFlightEpoch, epoch);
      CountAbove(saveEpoch, epoch);
    }

    /** `_loadTile(tileUrl)`: requests the shifted tile; for the `undefined` of an empty shift, `tileUrl.url` throws. */
    method LoadTile(tileUrl: Option<TileDescriptor>) returns (raised: Option<JsError>)
      requires Accounts(if tileUrl.Some? then 1 else 0, 0)
      modifies this`inFlight, this`inFlightEpoch
      ensures Valid()
      ensures tileUrl.None? ==> raised == Some(TypeError) && inFlight == old(inFlight)
      ensures tileUrl.Some? ==> raised == None && inFlight == old(inFlight) + [tileUrl.value]
    {
      if tileUrl.None? {
        return Some(TypeError);
      }
      CountAppend(inFlightEpoch, epoch, epoch);
      inFlight := inFlight + [tileUrl.value];
      inFlightEpoch := inFlightEpoch + [epoch];
      raised := None;
    }

    /** `_tilesforSave.shift()`: the head of the queue, or `undefined` when it is empty. */
    method ShiftQueue() returns (head: Option<TileDescriptor>)
      requires Valid()
      modifies this`status
      ensures Accounts(if head.Some? then 1 else 0, 0)
      ensures old(status.tilesforSave) == [] ==> head == None && status == old(status)
      ensures old(status.tilesforSave) != [] ==>
                head == Some(old(status.tilesforSave[0]))
                && status == old(status).(tilesforSave := old(status.tilesforSave[1..]))
    {
      if status.tilesforSave == [] {
        return None;
      }
      head := Some(status.tilesforSave[0]);
      status := status.(tilesforSave := status.tilesforSave[1..]);
    }

    /**
     * The `succescallback` of `_saveTiles`: fires 'savestart', then for each
     * of `getSimultaneous()` slots shifts a tile off the queue and requests
     * it; it stops at the first slot that finds the queue empty.
     */
    method StartSave() returns (raised: Option<JsError>)
      requires Valid()
      modifies this`status, this`inFlight, this`inFlightEpoch, this`events
      ensures Valid()
      ensures events == old(events) + [SaveStart]
      ensures var q := old(status.tilesforSave);
              var n := layer.GetSimultaneous();
              && (raised == Some(TypeError) <==> n > |q|)
              && (raised.None? || raised == Some(TypeError))
              && status == old(status).(tilesforSave := q[Min(n, |q|)..])
              && inFlight == old(inFlight) + q[..Min(n, |q|)]
    {
      events := events + [SaveStart];
      var subdlength := layer.GetSimultaneous();
      ghost var q := status.tilesforSave;
      var i := 0;
      while i < subdlength
        invariant 0 <= i <= subdlength && i <= |q|
        invariant Valid()
        invariant events == old(events) + [SaveStart]
        invariant status == old(status).(tilesforSave := q[i..]) && inFlight == old(inFlight) + q[..i]
      {
        var next := ShiftQueue();
        var r := LoadTile(next);
        if r.Some? {
          assert q[..i] == q;
          return r;
        }
        assert q[..i + 1] == q[..i] + [q[i]];
        i := i + 1;
      }
      raised := None;
    }

    /**
     * `_saveTiles`: queues, zoom level by zoom level, the layer's tiles for
     * the map's bounds, starts a new batch, and starts the downloads at once
     * unless a `confirm` callback is set (which is handed the continuation,
     * `StartSave`).
     */
    method SaveTiles(mapZoom: int, mapBounds: LatLngBounds) returns (raised: Option<JsError>)
      requires Valid()
      modifies this`status, this`inFlight, this`inFlightEpoch, this`events, this`epoch, this`stale,
               this`dropped, this`unsaved, layer
      ensures Valid()
      ensures layer.url == old(layer.url)
      ensures var queue := BatchTiles(layer.build, layer.host, layer.url, layer.subdomains,
                                      InBounds(mapBounds), LegacyZooms(options, mapZoom));
              var n := layer.GetSimultaneous();
              && !stale && epoch == old(epoch) + 1
              && (options.confirm ==>
                    raised == None && status == ResetStatus(queue) && inFlight == old(inFlight)
                    && events == old(events))
              && (!options.confirm ==>
                    && (raised == Some(TypeError) <==> n > |queue|)
                    && (raised.None? || raised == Some(TypeError))
                    && status == ResetStatus(queue).(tilesforSave := queue[Min(n, |queue|)..])
                    && inFlight == old(inFlight) + queue[..Min(n, |queue|)]
                    && events == old(events) + [SaveStart])
    {
      var zoomlevels := LegacyZooms(options, mapZoom);
      var tiles := CollectTiles(layer, zoomlevels, InBounds(mapBounds));
      ResetBatch(tiles);
      if options.confirm {
        raised := None;
      } else {
        raised := StartSave();
      }
    }

    /** `_saveTile(key, blob)`: starts removing the old entry, then storing the blob. */
    method SaveTile(key: string, blob: Blob, ghost requestEpoch: nat)
      modifies this`pendingSaves, this`saveEpoch
      ensures pendingSaves == old(pendingSaves) + [(key, blob)]
      ensures saveEpoch == old(saveEpoch) + [requestEpoch]
    {
      pendingSaves := pendingSaves + [(key, blob)];
      saveEpoch := saveEpoch + [requestEpoch];
    }

    /** In-flight request `k` reached DONE and leaves the in-flight list. */
    method TakeRequest(k: nat) returns (tile: TileDescriptor, ghost requestEpoch: nat)
      requires Valid()
      requires k < |inFlight|
      modifies this`inFlight, this`inFlightEpoch
      ensures Accounts(if requestEpoch == epoch then 1 else 0, 0)
      ensures requestEpoch <= epoch
      ensures tile == old(inFlight[k]) && inFlight == old(inFlight[..k] + inFlight[k + 1..])
    {
      tile := inFlight[k];
      requestEpoch := inFlightEpoch[k];
      assert requestEpoch <= epoch by {
        assert inFlightEpoch[k] in inFlightEpoch;
      }
      CountRemoveAt(inFlightEpoch, k, epoch);
      RemoveAtKeepsBound(inFlightEpoch, k, inFlightEpoch[..k] + inFlightEpoch[k + 1..], epoch);
      inFlight := inFlight[..k] + inFlight[k + 1..];
      inFlightEpoch := inFlightEpoch[..k] + inFlightEpoch[k + 1..];
    }

    /**
     * A request ended with 200: the tile counts as loaded and is saved; the
     * next tile is shifted off and requested if the queue is not empty,
     * else 'loadend' fires once every tile is loaded.
     */
    method TileLoaded(tile: TileDescriptor, response: Blob, ghost requestEpoch: nat)
      requires Accounts(if requestEpoch == epoch then 1 else 0, 0)
      requires requestEpoch <= epoch
      modifies this`status, this`inFlight, this`inFlightEpoch, this`pendingSaves, this`saveEpoch,
               this`events, this`stale
      ensures Valid()
      ensures pendingSaves == old(pendingSaves) + [(tile.key, response)]
      ensures var loaded := old(status.lengthLoaded) + 1;
              var q := old(status.tilesforSave);
              && (q != [] ==>
                    status == old(status).(lengthLoaded := loaded, tilesforSave := q[1..])
                    && inFlight == old(inFlight) + [q[0]] && events == old(events) + [LoadTileEnd])
              && (q == [] ==>
                    status == old(status).(lengthLoaded := loaded) && inFlight == old(inFlight)
                    && events == old(events) + [LoadTileEnd]
                                 + (if loaded == status.lengthToBeSaved then [LoadEnd] else []))
      ensures LoadEnd in events[|old(events)|..] ==>
                && status.tilesforSave == [] && status.lengthLoaded == status.lengthToBeSaved
                && (!stale ==> Count(inFlightEpoch, epoch) == 0 && dropped == 0)
    {
      CountLoaded(tile, response, requestEpoch);
      if |status.tilesforSave| > 0 {
        var next := ShiftQueue();
        var ignored := LoadTile(next);
        events := events + [LoadTileEnd];
      } else {
        events := events + [LoadTileEnd];
        if status.lengthLoaded == status.lengthToBeSaved {
          events := events + [LoadEnd];
          AllLoaded();
        }
      }
    }

    /** The counting part of a 200 response: loaded goes up, and the response is saved. */
    method CountLoaded(tile: TileDescriptor, response: Blob, ghost requestEpoch: nat)
      requires Accounts(if requestEpoch == epoch then 1 else 0, 0)
      requires requestEpoch <= epoch
      modifies this`status, this`pendingSaves, this`saveEpoch, this`stale
      ensures Valid()
      ensures status == old(status).(lengthLoaded := old(status.lengthLoaded) + 1)
      ensures pendingSaves == old(pendingSaves) + [(tile.key, response)]
    {
      status := status.(lengthLoaded := status.lengthLoaded + 1);
      stale := stale || requestEpoch != epoch;
      CountAppend(saveEpoch, requestEpoch, epoch);
      SaveTile(tile.key, response, requestEpoch);
    }

    /** With every tile loaded and none queued, nothing of the batch is in flight or dropped. */
    lemma AllLoaded()
      requires Valid()
      requires status.tilesforSave == [] && status.lengthLoaded == status.lengthToBeSaved
      ensures !stale ==> Count(inFlightEpoch, epoch) == 0 && dropped == 0
    {
    }

    /**
     * A change of `readyState` of in-flight request `k` to DONE, with the
     * HTTP status and the response: only 200 is acted on (`TileLoaded`);
     * any other status changes nothing and starts nothing.
     */
    method OnLoadDone(k: nat, httpStatus: int, response: Blob)
      requires Valid()
      requires k < |inFlight|
      modifies this`status, this`inFlight, this`inFlightEpoch, this`pendingSaves, this`saveEpoch,
               this`events, this`dropped, this`stale
      ensures Valid()
      ensures var tile := old(inFlight[k]);
              var rest := old(inFlight[..k] + inFlight[k + 1..]);
              var q := old(status.tilesforSave);
              var loaded := old(status.lengthLoaded) + 1;
              && pendingSaves == old(pendingSaves) + (if httpStatus == 200 then [(tile.key, response)] else [])
              && (httpStatus == 200 ==>
                    if q != [] then
                      status == old(status).(lengthLoaded := loaded, tilesforSave := q[1..])
                      && inFlight == rest + [q[0]] && events == old(events) + [LoadTileEnd]
                    else
                      status == old(status).(lengthLoaded := loaded) && inFlight == rest
                      && events == old(events) + [LoadTileEnd]
                                   + (if loaded == status.lengthToBeSaved then [LoadEnd] else []))
              && (httpStatus != 200 ==> status == old(status) && inFlight == rest && events == old(events))
    /** 'loadend' means, unless an older batch interfered, that every tile of the batch was loaded. */
      ensures LoadEnd in events[|old(events)|..] ==>
                && httpStatus == 200 && status.tilesforSave == []
                && status.lengthLoaded == status.lengthToBeSaved
                && (!stale ==> Count(inFlightEpoch, epoch) == 0 && dropped == 0)
    {
      var tileUrl, requestEpoch := TakeRequest(k);
      if httpStatus == 200 {
        TileLoaded(tileUrl, response, requestEpoch);
      } else {
        CountDropped(requestEpoch);
      }
    }

    /** A request of the current batch that ended with any status but 200 is dropped: nothing counts it. */
    method CountDropped(ghost requestEpoch: nat)
      requires Accounts(if requestEpoch == epoch then 1 else 0, 0)
      modifies this`dropped
      ensures Valid()
    {
      if requestEpoch == epoch {
        dropped := dropped + 1;
      }
    }

    /** Pending save `k` settled and leaves the pending list. */
    method TakeSave(k: nat) returns (key: string, blob: Blob, ghost requestEpoch: nat)
      requires Valid()
      requires k < |pendingSaves|
      modifies this`pendingSaves, this`saveEpoch
      ensures Accounts(0, if requestEpoch == epoch then 1 else 0)
      ensures (key, blob) == old(pendingSaves[k]) && pendingSaves == old(pendingSaves[..k] + pendingSaves[k + 1..])
    {
      key, blob := pendingSaves[k].0, pendingSaves[k].1;
      requestEpoch := saveEpoch[k];
      CountRemoveAt(saveEpoch, k, epoch);
      RemoveAtKeepsBound(saveEpoch, k, saveEpoch[..k] + saveEpoch[k + 1..], epoch);
      pendingSaves := pendingSaves[..k] + pendingSaves[k + 1..];
      saveEpoch := saveEpoch[..k] + saveEpoch[k + 1..];
    }

    /**
     * A save stored its blob: it counts as saved and 'savetileend' fires;
     * when every tile of the batch is saved, 'saveend' fires and
     * `setStorageSize()` runs without a callback, which throws when the
     * size is already known and truthy.
     */
    method TileStored(key: string, blob: Blob, ghost requestEpoch: nat) returns (raised: Option<JsError>)
      requires Accounts(0, if requestEpoch == epoch then 1 else 0)
      modifies this`status, this`store, this`events, this`stale, this`lengthQueries
      ensures Valid()
      ensures var saved := old(status.lengthSaved) + 1;
              var finished := saved == status.lengthToBeSaved;
              var known := StorageSizeTruthy(status.storagesize);
              && store == old(store)[key := blob]
              && status == old(status).(lengthSaved := saved)
              && events == old(events) + [SaveTileEnd] + (if finished then [SaveEnd] else [])
              && raised == (if finished && known then Some(TypeError) else None)
              && lengthQueries == old(lengthQueries) + (if finished && !known then [false] else [])
    {
      store := store[key := blob];
      CountSaved(requestEpoch);
      raised := AnnounceSaved();
    }

    /** `lengthSaved++` for a save of batch `requestEpoch`: the accounts balance again. */
    method CountSaved(ghost requestEpoch: nat)
      requires Accounts(0, if requestEpoch == epoch then 1 else 0)
      modifies this`status, this`stale
      ensures Valid()
      ensures status == old(status).(lengthSaved := old(status.lengthSaved) + 1)
    {
      status := status.(lengthSaved := status.lengthSaved + 1);
      stale := stale || requestEpoch != epoch;
    }

    /**
     * What follows a stored tile: 'savetileend', then, once all are saved,
     * 'saveend' and `setStorageSize()` without a callback.
     */
    method AnnounceSaved() returns (raised: Option<JsError>)
      modifies this`events, this`lengthQueries
      ensures var finished := status.lengthSaved == status.lengthToBeSaved;
              var known := StorageSizeTruthy(status.storagesize);
              && events == old(events) + [SaveTileEnd] + (if finished then [SaveEnd] else [])
              && raised == (if finished && known then Some(TypeError) else None)
              && lengthQueries == old(lengthQueries) + (if finished && !known then [false] else [])
    {
      events := events + [SaveTileEnd];
      raised := None;
      if status.lengthSaved == status.lengthToBeSaved {
        events := events + [SaveEnd];
        var ignored;
        ignored, raised := SetStorageSize(false);
      }
    }

    /**
     * The `_saveTile` chain of pending save `k` settles: a stored blob is
     * `TileStored`; a failed `setItem` leaves the entry removed and fires
     * nothing; a failed `removeItem` changes nothing.
     */
    method OnSaveDone(k: nat, outcome: SaveOutcome) returns (raised: Option<JsError>)
      requires Valid()
      requires k < |pendingSaves|
      modifies this`status, this`pendingSaves, this`saveEpoch, this`store, this`events, this`unsaved,
               this`stale, this`lengthQueries
      ensures Valid()
      ensures pendingSaves == old(pendingSaves[..k] + pendingSaves[k + 1..])
      ensures outcome != Stored ==> raised == None && status == old(status) && events == old(events)
                                    && lengthQueries == old(lengthQueries)
      ensures outcome == RemoveFailed ==> store == old(store)
      ensures outcome == SetFailed ==> store == old(store) - {old(pendingSaves[k]).0}
      ensures outcome == Stored ==>
                var saved := old(status.lengthSaved) + 1;
                var finished := saved == status.lengthToBeSaved;
                var known := StorageSizeTruthy(status.storagesize);
                && store == old(store)[old(pendingSaves[k]).0 := old(pendingSaves[k]).1]
                && status == old(status).(lengthSaved := saved)
                && events == old(events) + [SaveTileEnd] + (if finished then [SaveEnd] else [])
                && raised == (if finished && known then Some(TypeError) else None)
                && lengthQueries == old(lengthQueries) + (if finished && !known then [false] else [])
    /** 'saveend' means, unless an older batch interfered, that every tile was downloaded and stored. */
      ensures SaveEnd in events[|old(events)|..] ==>
                && outcome == Stored && status.lengthSaved == status.lengthToBeSaved
                && (!stale ==>
                      && status.lengthLoaded == status.lengthToBeSaved && status.tilesforSave == []
                      && dropped == 0 && unsaved == 0
                      && Count(inFlightEpoch, epoch) == 0 && Count(saveEpoch, epoch) == 0)
    {
      var key, blob, requestEpoch := TakeSave(k);
      if outcome == Stored {
        raised := TileStored(key, blob, requestEpoch);
        if status.lengthSaved == status.lengthToBeSaved {
          AllSaved();
        }
      } else {
        raised := None;
        NotStored(key, outcome, requestEpoch);
      }
    }

    /**
     * A `_saveTile` chain that did not store: after a failed `setItem` the
     * old entry is gone; a save of the current batch counts as unsaved.
     */
    method NotStored(key: string, outcome: SaveOutcome, ghost requestEpoch: nat)
      requires outcome != Stored
      requires Accounts(0, if requestEpoch == epoch then 1 else 0)
      modifies this`store, this`unsaved
      ensures Valid()
      ensures store == if outcome == SetFailed then old(store) - {key} else old(store)
    {
      if outcome == SetFailed {
        store := store - {key};
      }
      if requestEpoch == epoch {
        unsaved := unsaved + 1;
      }
    }

    /** With every tile saved, unless an older batch interfered, every tile was loaded and nothing is outstanding. */
    lemma AllSaved()
      requires Valid()
      requires status.lengthSaved == status.lengthToBeSaved
      ensures !stale ==>
                && status.lengthLoaded == status.lengthToBeSaved && status.tilesforSave == []
                && dropped == 0 && unsaved == 0
                && Count(inFlightEpoch, epoch) == 0 && Count(saveEpoch, epoch) == 0
    {
    }

    /** `_rmTiles`: clears the store at once, without asking. */
    method RmTiles()
      modifies this`clears
      ensures clears == old(clears) + 1
    {
      clears := clears + 1;
    }

    /**
     * A `localforage.clear()` settles: on success the store is empty, the
     * size is 0 and 'tilesremoved' and 'storagesize' fire; a failure is not
     * caught and changes nothing.
     */
    method OnClearDone(ok: bool)
      requires Valid()
      requires clears > 0
      modifies this`clears, this`store, this`status, this`events
      ensures Valid()
      ensures clears == old(clears) - 1
      ensures ok ==> && store == map[] && status == old(status).(storagesize := Some(0))
                     && events == old(events) + [TilesRemoved, StorageSize]
      ensures !ok ==> store == old(store) && status == old(status) && events == old(events)
    {
      clears := clears - 1;
      if ok {
        store := map[];
        status := status.(storagesize := Some(0));
        events := events + [TilesRemoved, StorageSize];
      }
    }
  }
}
