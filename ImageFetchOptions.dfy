/** `ImageFetchOptions`: the options of an image request, and their default values. */
module FetchOptions {
  import Optional
  import Fanout

  /** How to resize the requested image to the target size. */
  datatype ResizeMode = None | Fast | Exact

  /** How many results, of which quality, a request delivers. */
  datatype DeliveryMode = Opportunistic | HighQualityFormat | FastFormat

  datatype ImageFetchOptions = ImageFetchOptions(
    deliveryMode: DeliveryMode,
    resizeMode: ResizeMode,
    isNetworkAccessAllowed: bool,
    isSynchronous: bool,
    progressHandler: Optional.Option<Fanout.Callback>)

  /**
   * `ImageFetchOptions()`: opportunistic delivery, no resizing, network access allowed
   * (the code's default, which overrides its doc comment's "Defaults to false"),
   * asynchronous, and no progress handler.
   */
  function DefaultOptions(): (o: ImageFetchOptions)
    ensures o.deliveryMode == Opportunistic && o.resizeMode == None
    ensures o.isNetworkAccessAllowed && !o.isSynchronous
    ensures o.progressHandler.None?
  {
    ImageFetchOptions(Opportunistic, None, true, false, Optional.None)
  }

  /** The resize modes are exactly none, fast and exact; the delivery modes exactly three. */
  lemma ModesAreExhaustive(r: ResizeMode, d: DeliveryMode)
    ensures r == None || r == Fast || r == Exact
    ensures d == Opportunistic || d == HighQualityFormat || d == FastFormat
    ensures None != Fast && Fast != Exact && None != Exact
    ensures Opportunistic != HighQualityFormat && HighQualityFormat != FastFormat && Opportunistic != FastFormat
  {
  }
}
