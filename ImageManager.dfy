/**
 * `ImageManager`: the caching image manager's public face. It holds no state: a request
 * only computes and returns the fingerprint of what was asked for, and cancelling or
 * pre-warming the cache does nothing. The comments in the source describe coalescing of
 * requests with equal ids; the code does not do it, and neither does the model.
 */
module ImageManagers {
  import opened Optional
  import Hex
  import Assets
  import FetchOptions
  import Fanout

  type ImageRequestId = Hex.UInt32

  const InvalidImageRequestId: ImageRequestId := 0

  /** `ImageFetchResponse.Source`, an option set of two flags. */
  const SourceLocal: nat := 1
  const SourceRemote: nat := 2

  /** An image, identified by a token. */
  type Image = nat

  datatype ImageFetchResponse = ImageFetchResponse(image: Option<Image>, isDegraded: bool, source: nat)

  /** A failure, identified by its domain and code. */
  datatype Error = Error(domain: string, code: int)

  datatype CachingImageResult =
    | Success(response: ImageFetchResponse)
    | Failure(error: Error)
    | Cancelled(requestId: ImageRequestId)

  /**
   * `requestImage(for:targetSize:contentMode:options:resultHandler:)`: the fingerprint of
   * the asset with both parameters present. `options` is not consulted and
   * `resultHandler` is never called.
   */
  method RequestImage(digest: Assets.Digest, asset: Assets.Asset, targetSize: Assets.Size,
                      contentMode: Assets.ContentMode, options: FetchOptions.ImageFetchOptions,
                      resultHandler: Fanout.Callback)
    returns (id: ImageRequestId)
    ensures id == Assets.Fingerprint(digest, asset.LocalIdentifier(), Some(targetSize), Some(contentMode))
  {
    id := Assets.RequestId(digest, asset, Some(targetSize), Some(contentMode));
  }

  /**
   * `requestImageData(for:options:resultHandler:)`: the fingerprint with neither size nor
   * mode, so it depends on the asset's identifier alone.
   */
  method RequestImageData(digest: Assets.Digest, asset: Assets.Asset,
                          options: Option<FetchOptions.ImageFetchOptions>, resultHandler: Fanout.Callback)
    returns (id: ImageRequestId)
    ensures id == Assets.Fingerprint(digest, asset.LocalIdentifier(), None, None)
  {
    id := Assets.RequestId(digest, asset, None, None);
  }

  /** `cancelImageRequest(_:)`: does nothing (the method may change no state). */
  method CancelImageRequest(requestId: ImageRequestId)
  {
  }

  /** `startCachingImages(for:targetSize:contentMode:options:)`: does nothing. */
  method StartCachingImages(assets: seq<Assets.Asset>, targetSize: Assets.Size,
                            contentMode: Assets.ContentMode, options: FetchOptions.ImageFetchOptions)
  {
  }

  /** `stopCachingImages(for:targetSize:contentMode:options:)`: does nothing. */
  method StopCachingImages(assets: seq<Assets.Asset>, targetSize: Assets.Size,
                           contentMode: Assets.ContentMode, options: FetchOptions.ImageFetchOptions)
  {
  }

  /** `stopCachingImagesForAllAssets()`: does nothing. */
  method StopCachingImagesForAllAssets()
  {
  }

  /**
   * The manager remembers nothing: asking again after a cancel, with caching started and
   * stopped in between and different options and handlers, gives the same id, and two
   * different assets with one identifier get one id.
   */
  method RequestAfterCancel(digest: Assets.Digest, asset: Assets.Asset, other: Assets.Asset,
                            targetSize: Assets.Size, contentMode: Assets.ContentMode,
                            options1: FetchOptions.ImageFetchOptions, options2: FetchOptions.ImageFetchOptions)
    returns (before: ImageRequestId, after: ImageRequestId, forOther: ImageRequestId)
    ensures before == after
    ensures other.LocalIdentifier() == asset.LocalIdentifier() ==> forOther == before
    ensures before == Assets.Fingerprint(digest, asset.LocalIdentifier(), Some(targetSize), Some(contentMode))
  {
    before := RequestImage(digest, asset, targetSize, contentMode, options1, 1);
    CancelImageRequest(before);
    StartCachingImages([asset], targetSize, contentMode, options1);
    StopCachingImages([asset], targetSize, contentMode, options1);
    StopCachingImagesForAllAssets();
    after := RequestImage(digest, asset, targetSize, contentMode, options2, 2);
    forOther := RequestImage(digest, other, targetSize, contentMode, options2, 3);
  }

  /**
   * An image request and a data request for one asset differ in their canonical URL,
   * even when the image request asks for the maximum size.
   */
  lemma ImageAndDataRequestsDiffer(localIdentifier: string, targetSize: Assets.Size, contentMode: Assets.ContentMode)
    ensures Assets.CanonicalUrl(localIdentifier, Some(targetSize), Some(contentMode))
            != Assets.CanonicalUrl(localIdentifier, None, None)
  {
    Assets.CanonicalUrlInjective(localIdentifier, Some(targetSize), Some(contentMode), localIdentifier, None, None);
  }
}
