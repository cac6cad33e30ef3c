/**
 * `MediaImageManager`: the ledger of downloads from the photo library. `progressHandlers`
 * maps an asset identifier to the photo library's id for the one download tracked for
 * that asset; `progressObservers` maps (observer, asset identifier) to the closure that
 * wants that download's progress.
 *
 * The photo library (`PHImageManager`) is a collaborator outside the model. Its side of
 * the conversation is two fields: the next request id it will hand out, and the
 * requests whose completion handler it has not yet called (`pending`). Its progress and
 * completion callbacks are methods of the manager, called as events with the request id
 * they belong to. Every closure call the manager makes is returned as a record.
 */
module MediaImages {
  import opened Optional
  import Fanout

  /** `PHImageRequestID`, handed out by the photo library. */
  type RequestId = int

  type Url = string

  /** A photo-library asset; the manager uses only its identifier. */
  datatype PhotoAsset = PhotoAsset(localIdentifier: string)

  datatype Orientation = Up | Down | Left | Right | UpMirrored | DownMirrored | LeftMirrored | RightMirrored

  /** `MediaImageObserver`: an observing object together with the asset it watches. */
  datatype MediaImageObserver = MediaImageObserver(observer: object, assetIdentifier: string)

  /** The three photo-library requests the manager issues. */
  datatype FetchKind = ImageData | AVAsset | PlayerItem

  datatype DeliveryMode = HighQualityFormat | FastFormat

  /**
   * A request the photo library is working on: what was asked for, with which options,
   * and the caller's optional result closure that the completion handler captured.
   */
  datatype Fetch = Fetch(kind: FetchKind, asset: PhotoAsset, isNetworkAccessAllowed: bool,
                         deliveryMode: DeliveryMode, result: Option<Fanout.Callback>)

  /** A video player item, identified by a token. */
  type AVPlayerItem = nat

  datatype NSError = NSError(domain: string, code: int)

  datatype PreviewResult = Success(item: AVPlayerItem) | Failure(error: NSError)

  /** Calls of the callers' result closures. */
  datatype ImageResultCall = ImageResultCall(callback: Fanout.Callback, orientation: Orientation, url: Url)
  datatype VideoResultCall = VideoResultCall(callback: Fanout.Callback, url: Url)
  datatype PreviewResultCall = PreviewResultCall(callback: Fanout.Callback, result: PreviewResult)

  /** A call of a progress closure, made for the observer it was registered under. */
  type ProgressCall = Fanout.Call<MediaImageObserver, real>

  type Observers = map<MediaImageObserver, Fanout.Callback>

  const PreviewErrorDomain: string := "com.152percent.Pluto"

  /** The filter `{ $0.key.assetIdentifier == assetIdentifier }`. */
  function Matching(observers: Observers, assetIdentifier: string): (r: set<MediaImageObserver>)
    ensures r <= observers.Keys
    ensures forall o | o in observers :: o in r <==> o.assetIdentifier == assetIdentifier
  {
    set o | o in observers && o.assetIdentifier == assetIdentifier
  }

  /** The observers left once those of `assetIdentifier` are unregistered. */
  function WithoutAsset(observers: Observers, assetIdentifier: string): (r: Observers)
    ensures forall o | o in observers :: o in r <==> o.assetIdentifier != assetIdentifier
    ensures forall o | o in r :: o in observers && r[o] == observers[o]
  {
    observers - Matching(observers, assetIdentifier)
  }

  /** Unregistering one more observer is unregistering a set one larger. */
  lemma RemoveOneMore(observers: Observers, removed: set<MediaImageObserver>, o: MediaImageObserver)
    ensures (observers - removed) - {o} == observers - (removed + {o})
  {
  }

  /** The outcome handed to a preview's result closure: the item, or error -1. */
  function PreviewOutcome(item: Option<AVPlayerItem>): (r: PreviewResult)
    ensures r.Success? <==> item.Some?
    ensures r.Success? ==> r.item == item.value
    ensures r.Failure? ==> r.error == NSError(PreviewErrorDomain, -1)
  {
    match item
    case Some(i) => Success(i)
    case None => Failure(NSError(PreviewErrorDomain, -1))
  }

  class MediaImageManager {
    var progressHandlers: map<string, RequestId>
    var progressObservers: Observers
    /** The photo library's state, as far as the manager can see it. */
    var nextRequestId: RequestId
    var pending: map<RequestId, Fetch>

    /**
     * The tracked ids are ones the photo library has handed out, no two assets share one,
     * and a tracked id that is still pending belongs to a download of that asset.
     */
    ghost predicate LedgerValid()
      reads this
    {
      && (forall a | a in progressHandlers :: progressHandlers[a] < nextRequestId)
      && (forall a, b | a in progressHandlers && b in progressHandlers && a != b ::
            progressHandlers[a] != progressHandlers[b])
      && (forall a | a in progressHandlers && progressHandlers[a] in pending ::
            pending[progressHandlers[a]].asset.localIdentifier == a && pending[progressHandlers[a]].kind != PlayerItem)
      && (forall id | id in pending :: id < nextRequestId)
    }

    /** Every observer watches an asset that is being requested. */
    ghost predicate ObserversTracked()
      reads this
    {
      forall o | o in progressObservers :: o.assetIdentifier in progressHandlers
    }

    /** The manager's invariant: a consistent ledger, and no observer of an asset not being requested. */
    ghost predicate Valid()
      reads this
    {
      LedgerValid() && ObserversTracked()
    }

    constructor ()
      ensures Valid()
      ensures progressHandlers == map[] && progressObservers == map[] && pending == map[]
      ensures nextRequestId == 1
    {
      progressHandlers := map[];
      progressObservers := map[];
      nextRequestId := 1;
      pending := map[];
    }

    /** `isRequesting(asset:)`: whether a download of the asset is tracked. */
    function IsRequesting(asset: PhotoAsset): (r: bool)
      reads this
      requires Valid()
      ensures r <==> asset.localIdentifier in progressHandlers
      ensures !r ==> Matching(progressObservers, asset.localIdentifier) == {}
    {
      asset.localIdentifier in progressHandlers
    }

    /**
     * `observeProgress(for:asset:handler:)`: nothing unless the asset is being requested;
     * then registers (or replaces) the closure of exactly this observer and asset.
     */
    method ObserveProgress(observer: object, asset: PhotoAsset, handler: Fanout.Callback)
      requires Valid()
      modifies this
      ensures Valid()
      ensures asset.localIdentifier !in old(progressHandlers) ==> progressObservers == old(progressObservers)
      ensures asset.localIdentifier in old(progressHandlers) ==>
                progressObservers == old(progressObservers)[MediaImageObserver(observer, asset.localIdentifier) := handler]
      ensures progressHandlers == old(progressHandlers)
      ensures pending == old(pending) && nextRequestId == old(nextRequestId)
    {
      if !IsRequesting(asset) {
        return;
      }
      var key := MediaImageObserver(observer, asset.localIdentifier);
      progressObservers := progressObservers[key := handler];
    }

    /** `unobserveProgress(for:)`: unregisters one observer, if it is registered. */
    method UnobserveProgress(observer: MediaImageObserver)
      modifies this
      ensures old(Valid()) ==> Valid()
      ensures progressObservers == old(progressObservers) - {observer}
      ensures progressHandlers == old(progressHandlers)
      ensures pending == old(pending) && nextRequestId == old(nextRequestId)
    {
      progressObservers := progressObservers - {observer};
    }

    /**
     * The removal loop of cancel and of the video completion handler: unregisters each
     * observer of the asset, without calling it.
     */
    method UnobserveAll(assetIdentifier: string)
      modifies this
      ensures progressObservers == WithoutAsset(old(progressObservers), assetIdentifier)
      ensures progressHandlers == old(progressHandlers)
      ensures pending == old(pending) && nextRequestId == old(nextRequestId)
    {
      var snapshot := progressObservers;
      var matching := Matching(snapshot, assetIdentifier);
      var todo := matching;
      ghost var done: set<MediaImageObserver> := {};
      while todo != {}
        invariant todo <= matching && done == matching - todo
        invariant progressObservers == snapshot - done
        invariant progressHandlers == old(progressHandlers)
        invariant pending == old(pending) && nextRequestId == old(nextRequestId)
        decreases |todo|
      {
        var o :| o in todo;
        RemoveOneMore(snapshot, done, o);
        done := done + {o};
        UnobserveProgress(o);
        todo := todo - {o};
      }
      assert done == matching;
    }

    /**
     * The removal loop of the image completion handler: each observer of the asset, in
     * the dictionary's order, is called with a final progress of 1 and then unregistered.
     */
    method FinishObservers(assetIdentifier: string) returns (calls: seq<ProgressCall>)
      modifies this
      ensures progressObservers == WithoutAsset(old(progressObservers), assetIdentifier)
      ensures Fanout.CallsEachOnce(calls, old(progressObservers), Matching(old(progressObservers), assetIdentifier), 1.0)
      ensures progressHandlers == old(progressHandlers)
      ensures pending == old(pending) && nextRequestId == old(nextRequestId)
    {
      var snapshot := progressObservers;
      var matching := Matching(snapshot, assetIdentifier);
      var todo := matching;
      calls := [];
      ghost var done: set<MediaImageObserver> := {};
      assert Fanout.CalledKeys(calls) == {};
      while todo != {}
        invariant todo <= matching && done == matching - todo
        invariant progressObservers == snapshot - done
        invariant Fanout.CallsEachOnce(calls, snapshot, done, 1.0)
        invariant progressHandlers == old(progressHandlers)
        invariant pending == old(pending) && nextRequestId == old(nextRequestId)
        decreases |todo|
      {
        var o :| o in todo;
        Fanout.AppendCall(calls, snapshot, done, o, 1.0);
        calls := calls + [Fanout.Call(o, snapshot[o], 1.0)];
        RemoveOneMore(snapshot, done, o);
        done := done + {o};
        UnobserveProgress(o);
        todo := todo - {o};
      }
      assert done == matching;
    }

    /**
     * `cancelRequest(for:)`: nothing for an asset that is not being requested. Otherwise
     * its observers are unregistered without being called, its entry is removed, and the
     * photo library is asked to cancel exactly the recorded id (`cancelled`). The library
     * later answers through the completion handler, with the cancelled flag set.
     */
    method CancelRequest(asset: PhotoAsset) returns (cancelled: Option<RequestId>)
      requires Valid()
      modifies this
      ensures Valid()
      ensures asset.localIdentifier !in old(progressHandlers) ==>
                cancelled == None && progressHandlers == old(progressHandlers) && progressObservers == old(progressObservers)
      ensures asset.localIdentifier in old(progressHandlers) ==>
                && cancelled == Some(old(progressHandlers)[asset.localIdentifier])
                && progressHandlers == old(progressHandlers) - {asset.localIdentifier}
                && progressObservers == WithoutAsset(old(progressObservers), asset.localIdentifier)
      ensures pending == old(pending) && nextRequestId == old(nextRequestId)
    {
      if !IsRequesting(asset) {
        return None;
      }
      var id := progressHandlers[asset.localIdentifier];
      UnobserveAll(asset.localIdentifier);
      progressHandlers := progressHandlers - {asset.localIdentifier};
      cancelled := Some(id);
    }

    /** The photo library accepts a request and hands out a fresh id for it. */
    method StartFetch(fetch: Fetch) returns (id: RequestId)
      requires Valid()
      modifies this
      ensures Valid()
      ensures id == old(nextRequestId) && nextRequestId == id + 1
      ensures pending == old(pending)[id := fetch]
      ensures id !in old(pending) && forall a | a in progressHandlers :: progressHandlers[a] != id
      ensures progressHandlers == old(progressHandlers) && progressObservers == old(progressObservers)
    {
      id := nextRequestId;
      nextRequestId := nextRequestId + 1;
      pending := pending[id := fetch];
    }

    /**
     * `request(image:result:)`: when a download of the asset is already tracked, nothing
     * happens; otherwise the image data is requested (network allowed, high quality) and
     * the new id recorded under the asset's identifier.
     */
    method RequestImage(asset: PhotoAsset, result: Option<Fanout.Callback>) returns (started: Option<RequestId>)
      requires Valid()
      modifies this
      ensures Valid()
      ensures asset.localIdentifier in old(progressHandlers) ==>
                && started == None && progressHandlers == old(progressHandlers)
                && pending == old(pending) && nextRequestId == old(nextRequestId)
      ensures asset.localIdentifier !in old(progressHandlers) ==>
                && started == Some(old(nextRequestId)) && nextRequestId == old(nextRequestId) + 1
                && progressHandlers == old(progressHandlers)[asset.localIdentifier := started.value]
                && pending == old(pending)[started.value := Fetch(ImageData, asset, true, HighQualityFormat, result)]
      ensures progressObservers == old(progressObservers)
    {
      if asset.localIdentifier in progressHandlers {
        return None;
      }
      var id := StartFetch(Fetch(ImageData, asset, true, HighQualityFormat, result));
      progressHandlers := progressHandlers[asset.localIdentifier := id];
      started := Some(id);
    }

    /** `request(video:result:)`: as for images, with an AV-asset request. */
    method RequestVideo(asset: PhotoAsset, result: Option<Fanout.Callback>) returns (started: Option<RequestId>)
      requires Valid()
      modifies this
      ensures Valid()
      ensures asset.localIdentifier in old(progressHandlers) ==>
                && started == None && progressHandlers == old(progressHandlers)
                && pending == old(pending) && nextRequestId == old(nextRequestId)
      ensures asset.localIdentifier !in old(progressHandlers) ==>
                && started == Some(old(nextRequestId)) && nextRequestId == old(nextRequestId) + 1
                && progressHandlers == old(progressHandlers)[asset.localIdentifier := started.value]
                && pending == old(pending)[started.value := Fetch(AVAsset, asset, true, HighQualityFormat, result)]
      ensures progressObservers == old(progressObservers)
    {
      if asset.localIdentifier in progressHandlers {
        return None;
      }
      var id := StartFetch(Fetch(AVAsset, asset, true, HighQualityFormat, result));
      progressHandlers := progressHandlers[asset.localIdentifier := id];
      started := Some(id);
    }

    /**
     * `request(preview:result:)`: asks for a player item (network allowed, fast format)
     * and records nothing; the id the photo library hands out is discarded by the source
     * and returned here only so that its completion can be delivered.
     */
    method RequestPreview(asset: PhotoAsset, result: Option<Fanout.Callback>) returns (libraryId: RequestId)
      requires Valid()
      modifies this
      ensures Valid()
      ensures libraryId == old(nextRequestId) && nextRequestId == libraryId + 1
      ensures pending == old(pending)[libraryId := Fetch(PlayerItem, asset, true, FastFormat, result)]
      ensures progressHandlers == old(progressHandlers) && progressObservers == old(progressObservers)
    {
      libraryId := StartFetch(Fetch(PlayerItem, asset, true, FastFormat, result));
    }

    /** `notifyProgressObservers(assetIdentifier:progress:)`. */
    method NotifyProgressObservers(assetIdentifier: string, progress: real) returns (calls: seq<ProgressCall>)
      ensures Fanout.CallsEachOnce(calls, progressObservers, Matching(progressObservers, assetIdentifier), progress)
    {
      calls := Fanout.CallEach(progressObservers, Matching(progressObservers, assetIdentifier), progress);
    }

    /**
     * The progress handler of an image or video request: relays the progress to exactly
     * the observers registered under the request's asset.
     */
    method ProgressEvent(id: RequestId, progress: real) returns (calls: seq<ProgressCall>)
      requires id in pending && pending[id].kind != PlayerItem
      ensures Fanout.CallsEachOnce(calls, progressObservers,
                                   Matching(progressObservers, pending[id].asset.localIdentifier), progress)
    {
      calls := NotifyProgressObservers(pending[id].asset.localIdentifier, progress);
    }

    /**
     * The completion handler of an image request. A cancelled request changes nothing.
     * Otherwise the result closure is called once with the orientation and file URL; then,
     * if the asset is still tracked, its entry is removed and each of its observers gets a
     * final progress of 1 and is unregistered. The handler knows only its asset, not its
     * id, so it clears whatever entry the asset has. A missing URL stops the program in the
     * source and is excluded here.
     */
    method CompleteImageRequest(id: RequestId, isCancelled: bool, orientation: Orientation, url: Option<Url>)
      returns (resultCall: Option<ImageResultCall>, calls: seq<ProgressCall>)
      requires Valid() && id in pending && pending[id].kind == ImageData
      requires !isCancelled ==> url.Some?
      modifies this
      ensures Valid()
      ensures pending == old(pending) - {id} && nextRequestId == old(nextRequestId)
      ensures var fetch := old(pending)[id];
              var aid := fetch.asset.localIdentifier;
              && (isCancelled ==>
                    && resultCall == None && calls == []
                    && progressHandlers == old(progressHandlers) && progressObservers == old(progressObservers))
              && (!isCancelled ==>
                    resultCall == (if fetch.result.Some? then Some(ImageResultCall(fetch.result.value, orientation, url.value)) else None))
              && (!isCancelled && aid in old(progressHandlers) ==>
                    && progressHandlers == old(progressHandlers) - {aid}
                    && progressObservers == WithoutAsset(old(progressObservers), aid)
                    && Fanout.CallsEachOnce(calls, old(progressObservers), Matching(old(progressObservers), aid), 1.0))
              && (!isCancelled && aid !in old(progressHandlers) ==>
                    calls == [] && progressHandlers == old(progressHandlers) && progressObservers == old(progressObservers))
    {
      var fetch := pending[id];
      var asset := fetch.asset;
      pending := pending - {id};
      calls := [];
      if isCancelled {
        return None, [];
      }
      resultCall := if fetch.result.Some? then Some(ImageResultCall(fetch.result.value, orientation, url.value)) else None;
      if !IsRequesting(asset) {
        return;
      }
      progressHandlers := progressHandlers - {asset.localIdentifier};
      calls := FinishObservers(asset.localIdentifier);
    }

    /**
     * The completion handler of a video request. Whether or not the request was
     * cancelled, a tracked asset's entry and observers are removed (the `defer` block),
     * with no final progress. The result closure gets the video's URL unless the request
     * was cancelled. A result that is not a URL asset stops the program in the source and
     * is excluded here.
     */
    method CompleteVideoRequest(id: RequestId, isCancelled: bool, avAssetUrl: Option<Url>)
      returns (resultCall: Option<VideoResultCall>)
      requires Valid() && id in pending && pending[id].kind == AVAsset
      requires !isCancelled ==> avAssetUrl.Some?
      modifies this
      ensures Valid()
      ensures pending == old(pending) - {id} && nextRequestId == old(nextRequestId)
      ensures var fetch := old(pending)[id];
              var aid := fetch.asset.localIdentifier;
              && (isCancelled ==> resultCall == None)
              && (!isCancelled ==>
                    resultCall == (if fetch.result.Some? then Some(VideoResultCall(fetch.result.value, avAssetUrl.value)) else None))
              && (aid in old(progressHandlers) ==>
                    progressHandlers == old(progressHandlers) - {aid}
                    && progressObservers == WithoutAsset(old(progressObservers), aid))
              && (aid !in old(progressHandlers) ==>
                    progressHandlers == old(progressHandlers) && progressObservers == old(progressObservers))
    {
      var fetch := pending[id];
      var asset := fetch.asset;
      pending := pending - {id};
      resultCall := None;
      if !isCancelled && fetch.result.Some? {
        resultCall := Some(VideoResultCall(fetch.result.value, avAssetUrl.value));
      }
      // the deferred clean-up
      if IsRequesting(asset) {
        progressHandlers := progressHandlers - {asset.localIdentifier};
        UnobserveAll(asset.localIdentifier);
      }
    }

    /**
     * The completion handler of a preview request: the result closure gets the item, or
     * error -1 when there is none. The ledger is never touched.
     */
    method CompletePreviewRequest(id: RequestId, item: Option<AVPlayerItem>) returns (resultCall: Option<PreviewResultCall>)
      requires Valid() && id in pending && pending[id].kind == PlayerItem
      modifies this
      ensures Valid()
      ensures pending == old(pending) - {id} && nextRequestId == old(nextRequestId)
      ensures var fetch := old(pending)[id];
              resultCall == if fetch.result.Some? then Some(PreviewResultCall(fetch.result.value, PreviewOutcome(item))) else None
      ensures progressHandlers == old(progressHandlers) && progressObservers == old(progressObservers)
    {
      var fetch := pending[id];
      pending := pending - {id};
      resultCall := if fetch.result.Some? then Some(PreviewResultCall(fetch.result.value, PreviewOutcome(item))) else None;
    }
  }

  /**
   * Two observers watch one image download of asset "A1": a repeated request starts
   * nothing, a progress event reaches both, and the completion hands the result to the
   * caller, gives each observer a final 1 and leaves the asset untracked.
   */
  method FanOutScenario(first: object, second: object)
    returns (repeated: Option<RequestId>, progress: seq<ProgressCall>, result: Option<ImageResultCall>,
             final: seq<ProgressCall>, trackedAfter: bool)
    requires first != second
    ensures repeated == None
    ensures var registry := map[MediaImageObserver(first, "A1") := 10, MediaImageObserver(second, "A1") := 11];
            && Fanout.CallsEachOnce(progress, registry, registry.Keys, 0.5)
            && Fanout.CallsEachOnce(final, registry, registry.Keys, 1.0)
    ensures result == Some(ImageResultCall(7, Up, "file:///A1"))
    ensures !trackedAfter
  {
    var manager := new MediaImageManager();
    var asset := PhotoAsset("A1");
    var started := manager.RequestImage(asset, Some(7));
    manager.ObserveProgress(first, asset, 10);
    manager.ObserveProgress(second, asset, 11);
    repeated := manager.RequestImage(asset, Some(8));
    progress := manager.ProgressEvent(started.value, 0.5);
    result, final := manager.CompleteImageRequest(started.value, false, Up, Some("file:///A1"));
    trackedAfter := manager.IsRequesting(asset);
  }

  /**
   * Cancelling a download twice: the first cancel asks the photo library to cancel the
   * recorded id and the second does nothing; the library's cancelled completion calls
   * no closure, and a new request of the same asset gets a fresh id.
   */
  method CancelTwiceScenario(observer: object)
    returns (first: Option<RequestId>, second: Option<RequestId>, result: Option<ImageResultCall>,
             final: seq<ProgressCall>, restarted: Option<RequestId>)
    ensures first == Some(1) && second == None
    ensures result == None && final == []
    ensures restarted == Some(2)
  {
    var manager := new MediaImageManager();
    var asset := PhotoAsset("A1");
    var started := manager.RequestImage(asset, Some(7));
    manager.ObserveProgress(observer, asset, 10);
    first := manager.CancelRequest(asset);
    second := manager.CancelRequest(asset);
    result, final := manager.CompleteImageRequest(started.value, true, Up, None);
    restarted := manager.RequestImage(asset, Some(7));
  }

  /**
   * A video download is cancelled and requested again; the first download's completion
   * arrives late, flagged as cancelled. Its deferred clean-up runs all the same and, since
   * it knows only the asset, removes the second download's entry.
   */
  method StaleVideoCompletionScenario()
    returns (first: Option<RequestId>, second: Option<RequestId>, trackedBefore: bool,
             result: Option<VideoResultCall>, trackedAfter: bool)
    ensures first == Some(1) && second == Some(2)
    ensures trackedBefore && result == None && !trackedAfter
  {
    var manager := new MediaImageManager();
    var asset := PhotoAsset("V1");
    first := manager.RequestVideo(asset, Some(7));
    var cancelled := manager.CancelRequest(asset);
    second := manager.RequestVideo(asset, Some(8));
    trackedBefore := manager.IsRequesting(asset);
    result := manager.CompleteVideoRequest(first.value, true, None);
    trackedAfter := manager.IsRequesting(asset);
  }

  /**
   * The same sequence for an image download: a late completion flagged as cancelled
   * returns before the clean-up and leaves the second download tracked, while one that
   * is not flagged removes the second download's entry.
   */
  method StaleImageCompletionScenario(flagged: bool)
    returns (second: Option<RequestId>, result: Option<ImageResultCall>, trackedAfter: bool)
    ensures second == Some(2)
    ensures flagged ==> result == None
    ensures !flagged ==> result == Some(ImageResultCall(7, Up, "file:///I1"))
    ensures trackedAfter <==> flagged
  {
    var manager := new MediaImageManager();
    var asset := PhotoAsset("I1");
    var first := manager.RequestImage(asset, Some(7));
    var cancelled := manager.CancelRequest(asset);
    second := manager.RequestImage(asset, Some(8));
    var final;
    result, final := manager.CompleteImageRequest(first.value, flagged, Up, if flagged then None else Some("file:///I1"));
    trackedAfter := manager.IsRequesting(asset);
  }
}
