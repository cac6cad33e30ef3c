# PhotoLibrary request bookkeeping, modelled in Dafny

This project models the bookkeeping at the heart of the PhotoLibrary image picker and proves
properties of it. It has four parts:

- **The download ledger of `MediaImageManager`.** Two dictionaries:
  - `progressHandlers` maps an asset identifier to the photo library's request id;
  - `progressObservers` maps (observer, asset identifier) to a progress closure.

  The model covers the operations that read and change them:
  - observe, unobserve, `isRequesting` and cancel;
  - the image, video and preview requests;
  - progress notification;
  - the completion handlers.

  The photo library (`PHImageManager`) is an outside party. Its state is two fields of the
  manager: the next id it hands out, and the requests it has not yet completed. Its progress
  and completion callbacks are methods called as events. Every closure call the manager makes
  is returned as a record naming the closure, the key it was registered under and its
  argument (module `Fanout`).
- **The request-id fingerprint of `Asset.requestId`.** It builds a canonical
  `asset://<identifier>?...` URL whose query items `width`, `height` and `mode` are sorted by
  name. It hashes the URL with MD5, parses the hex digest and truncates it to `UInt32`. Also
  modelled:
  - the placeholder asset and its fixed identifier;
  - `fetchAssets`, with falling back to a placeholder per URL;
  - `ContentMode` and `AssetMaximumSize`.
- **The `ImageManager` façade.** It holds no state. Its request methods return fingerprints;
  cancel and caching do nothing.
- **Small supporting types:**
  - `ImageFetchResult`: a mutable collection over an array;
  - the defaults of `ImageFetchOptions`;
  - the observable box `SubscribableValue`;
  - the progress clamp and visibility rule of `PieProgressView`.

Modules by file:

| file | module | models |
|---|---|---|
| Optional.dfy | `Optional` | Swift optionals |
| Fanout.dfy | `Fanout` | closures as tokens, and the "call every matching closure once" loop |
| Hex.dfy | `Hex` | `UInt32`, hex parsing, `truncatingIfNeeded` |
| Strings.dfy | `Strings` | `String` `<` and `Int` interpolation |
| Asset.dfy | `Assets` | `Caching/Asset.swift` |
| ImageFetchOptions.dfy | `FetchOptions` | `Caching/ImageFetchOptions.swift` |
| ImageFetchResult.dfy | `FetchResults` | `Caching/ImageFetchResult.swift` |
| ImageManager.dfy | `ImageManagers` | `Caching/ImageManager.swift` |
| MediaImageManager.dfy | `MediaImages` | `PhotoLibraryUI/Source/Helpers/MediaImageManager.swift` |
| SubscribableValue.dfy | `Subscribable` | `PhotoLibraryUI/Source/Theming/SubscribableValue.swift` |
| PieProgressView.dfy | `PieProgress` | `PhotoLibraryUI/Source/Views/PieProgressView.swift` |

Proved behaviour worth knowing:

- **Ledger invariant.** `MediaImageManager.Valid` is kept by every operation of the source.
  The two removal loops run inside handlers that first remove the asset's entry, so they are
  helpers whose callers re-establish it. It says:
  - every tracked id was handed out by the library;
  - no two assets share an id;
  - a tracked id that is still pending belongs to that asset;
  - no observer watches an asset that is not tracked.
- **Stale completions.** The completion handlers know their asset, not their id. Suppose a
  download is cancelled, the asset is requested again, and the first download's completion
  arrives late:
  - for a video, the deferred clean-up runs even when the completion is flagged as cancelled,
    so it removes the new download's entry (`StaleVideoCompletionScenario`);
  - for an image, a completion flagged as cancelled returns before the clean-up and the new
    entry stays; only an unflagged one removes it (`StaleImageCompletionScenario`).
- **Default network access.** For `ImageFetchOptions`, the code's default
  `isNetworkAccessAllowed` is `true`, while its doc comment says "Defaults to false". The
  model follows the code.
- **Maximum size.** `AssetMaximumSize` is the zero size, so a maximum-size request and an
  explicit 0 x 0 request get the same fingerprint; leaving the size out gives a different
  canonical URL.

## Model

| member | source | states |
|---|---|---|
| Fanout.CallEach | PhotoLibraryUI/Source/Theming/SubscribableValue.swift:24-25 | calls the registered closure of every given key exactly once with the argument, and nothing else |
| Hex.HexValue | Caching/Asset.swift:140 | the value of n hex digits is below 16^n |
| Hex.ParseHex | Caching/Asset.swift:140 | radix-16 parsing succeeds iff the text is a non-empty run of hex digits, with a value below 16^length |
| Hex.TruncatingIfNeeded | Caching/Asset.swift:141 | the result is a `UInt32` congruent to the input modulo 2^32, and equal to it when it is already in range |
| Hex.HexValueAppend | Caching/Asset.swift:140 | the value of concatenated digit strings is the first's value shifted by the second's length plus the second's |
| Hex.EightDigitsSpan | Caching/Asset.swift:141 | eight hex digits span exactly 2^32 |
| Hex.LowEightDigits | Caching/Asset.swift:138-141 | truncating a parsed hex string keeps the value of its last eight digits |
| Strings.LessIrreflexive | Caching/Asset.swift:136 | no name sorts before itself |
| Strings.LessTransitive | Caching/Asset.swift:136 | the name order used by the sort is transitive |
| Strings.LessTotal | Caching/Asset.swift:136 | of two different names, one sorts before the other |
| Strings.NatString | Caching/Asset.swift:120-128 | a natural renders as a non-empty run of decimal digits, of two or more for n >= 10 |
| Strings.DecimalString | Caching/Asset.swift:120-128 | an `Int` renders with a leading minus iff it is negative |
| Strings.NatStringInjective | Caching/Asset.swift:120-128 | different naturals render differently |
| Strings.DecimalStringInjective | Caching/Asset.swift:120-128 | different integers render differently, so the size in the query determines the size |
| Assets.ContentModeFromRawValue | Caching/Asset.swift:94-108 | the raw-value initialiser gives back the case whose raw value it gets, and nil when no case has that raw value |
| Assets.InsertByName | Caching/Asset.swift:136 | inserting into a name-sorted list keeps it sorted and adds exactly the one item |
| Assets.SortByName | Caching/Asset.swift:136 | the query items come out sorted by name and are a permutation of the input |
| Assets.SortedUnique | Caching/Asset.swift:136 | items with distinct names have exactly one name-sorted arrangement |
| Assets.SortedHeadsAgree | Caching/Asset.swift:136 | two name-sorted arrangements of the same distinct-named items start with the same item |
| Assets.MultisetTail | Caching/Asset.swift:136 | removing an equal first item from two permutations leaves permutations |
| Assets.SortedTail | Caching/Asset.swift:136 | the tail of a sorted, distinct-named list is sorted and distinct-named |
| Assets.CanonicalItemsSorted | Caching/Asset.swift:120-136 | the canonical order height, mode, width is sorted by name, with distinct names |
| Assets.QueryItemsOf | Caching/Asset.swift:118-134 | the appended query items are exactly the canonical ones, in some order |
| Assets.SortedIsCanonical | Caching/Asset.swift:136 | a name-sorted permutation of the query items is exactly the canonical query |
| Assets.RequestId | Caching/Asset.swift:114-142 | the step-by-step build, sort, hash, parse and truncation yield the fingerprint of the identifier, size and mode; the original URL plays no part |
| Assets.FingerprintIsLowDigits | Caching/Asset.swift:138-141 | the request id is the value of the digest's last eight hex digits |
| Assets.CanonicalUrlInjective | Caching/Asset.swift:114-136 | two requests share a canonical URL iff identifier, size and mode all agree |
| Assets.CanonicalItemsPresence | Caching/Asset.swift:120-134 | the query has `width` and `height` iff a size is given, and `mode` iff a mode is given |
| Assets.MaximumSizeCanonicalisation | Caching/Asset.swift:5 | the maximum size canonicalises as `height=0`, `width=0`, like 0 x 0, and differs from no size |
| Assets.PlaceholderFingerprints | Caching/Asset.swift:16-19 | every placeholder has the fixed identifier, so placeholders with equal parameters get equal ids whatever their URLs |
| Assets.LoadAsset | Caching/Asset.swift:60-65 | an unloadable URL yields a placeholder whose original URL is that URL; otherwise the decoded asset |
| Assets.FetchAssets | Caching/Asset.swift:56-67 | one asset per URL, in input order, each the load-or-placeholder result of its URL |
| Assets.FetchAssetsAppend | Caching/Asset.swift:59-66 | fetching a concatenation of URL lists concatenates the results |
| FetchOptions.DefaultOptions | Caching/ImageFetchOptions.swift:8-16 | defaults: opportunistic delivery, no resize, network allowed, asynchronous, no progress handler |
| FetchOptions.ModesAreExhaustive | Caching/ImageFetchOptions.swift:25-52 | the resize modes are exactly none, fast and exact, and the delivery modes exactly opportunistic, high quality and fast, all distinct |
| FetchResults.Replaced | Caching/ImageFetchResult.swift:34-37 | a replaced range keeps the prefix and the old suffix, puts the new elements at the range's start, and adjusts the length by their count |
| FetchResults.ImageFetchResult.constructor | Caching/ImageFetchResult.swift:13-15 | `init()` is empty, with start index equal to end index |
| FetchResults.ImageFetchResult.FromAssets | Caching/ImageFetchResult.swift:6-8 | `init(_:)` stores the given assets in order |
| FetchResults.ImageFetchResult.StartIndex | Caching/ImageFetchResult.swift:17-19 | the start index is 0 |
| FetchResults.ImageFetchResult.EndIndex | Caching/ImageFetchResult.swift:21-23 | the end index is the number of assets, not below the start |
| FetchResults.ImageFetchResult.IndexAfter | Caching/ImageFetchResult.swift:25-27 | the index after i is i + 1 |
| FetchResults.ImageFetchResult.Get | Caching/ImageFetchResult.swift:29-30 | the subscript reads the stored asset at a valid position |
| FetchResults.ImageFetchResult.Set | Caching/ImageFetchResult.swift:29-32 | setting a position replaces only that element; a following get returns it and the length is unchanged |
| FetchResults.ImageFetchResult.ReplaceSubrange | Caching/ImageFetchResult.swift:34-37 | `replaceSubrange` leaves exactly the replaced sequence |
| FetchResults.ReplaceRestores | Caching/ImageFetchResult.swift:34-37 | replacing a range and then putting its old contents back restores the collection |
| ImageManagers.RequestImage | Caching/ImageManager.swift:16-22 | the id is the fingerprint with both size and mode present; options and handler play no part |
| ImageManagers.RequestImageData | Caching/ImageManager.swift:24-30 | the id is the fingerprint with neither size nor mode, so it depends on the identifier alone |
| ImageManagers.CancelImageRequest | Caching/ImageManager.swift:32-34 | changes nothing: no state, no modifies clause |
| ImageManagers.StartCachingImages | Caching/ImageManager.swift:36-38 | changes nothing: no state, no modifies clause |
| ImageManagers.StopCachingImages | Caching/ImageManager.swift:40-42 | changes nothing: no state, no modifies clause |
| ImageManagers.StopCachingImagesForAllAssets | Caching/ImageManager.swift:44-46 | changes nothing: no state, no modifies clause |
| ImageManagers.RequestAfterCancel | Caching/ImageManager.swift:16-46 | after cancel and the caching calls, a request gives the same id as before, and any asset with the same identifier gets it too |
| ImageManagers.ImageAndDataRequestsDiffer | Caching/ImageManager.swift:16-30 | an image request and a data request for one asset never share a canonical URL |
| MediaImages.Matching | PhotoLibraryUI/Source/Helpers/MediaImageManager.swift:160-164 | exactly the registered observers of the given asset identifier |
| MediaImages.WithoutAsset | PhotoLibraryUI/Source/Helpers/MediaImageManager.swift:35-37 | exactly the registrations of other assets remain, each with its own closure |
| MediaImages.PreviewOutcome | PhotoLibraryUI/Source/Helpers/MediaImageManager.swift:96-103 | success with the item iff there is one; otherwise a failure with domain "com.152percent.Pluto" and code -1 |
| MediaImages.MediaImageManager.constructor | PhotoLibraryUI/Source/Helpers/MediaImageManager.swift:14-15 | a new manager tracks nothing and has no observers |
| MediaImages.MediaImageManager.IsRequesting | PhotoLibraryUI/Source/Helpers/MediaImageManager.swift:27-29 | true iff the ledger has an entry for the asset's identifier; when false, no observer watches the asset |
| MediaImages.MediaImageManager.ObserveProgress | PhotoLibraryUI/Source/Helpers/MediaImageManager.swift:17-21 | nothing changes unless the asset is tracked; then exactly the (observer, asset) entry is set to the handler |
| MediaImages.MediaImageManager.UnobserveProgress | PhotoLibraryUI/Source/Helpers/MediaImageManager.swift:23-25 | exactly that registration is removed, if present; a valid ledger stays valid |
| MediaImages.MediaImageManager.UnobserveAll | PhotoLibraryUI/Source/Helpers/MediaImageManager.swift:35-37 | the loop removes exactly the asset's observers, calling none |
| MediaImages.MediaImageManager.FinishObservers | PhotoLibraryUI/Source/Helpers/MediaImageManager.swift:77-84 | each of the asset's observers gets progress 1 exactly once, no other observer is called, and all of the asset's observers are removed |
| MediaImages.MediaImageManager.CancelRequest | PhotoLibraryUI/Source/Helpers/MediaImageManager.swift:31-41 | no-op for an untracked asset; otherwise removes its entry and its observers without calling them, keeps the other assets' entries and cancels exactly the recorded id |
| MediaImages.MediaImageManager.RequestImage | PhotoLibraryUI/Source/Helpers/MediaImageManager.swift:43-88 | a tracked asset starts nothing and changes nothing; otherwise one image-data fetch (network allowed, high quality) is started and its fresh id recorded under the asset |
| MediaImages.MediaImageManager.RequestVideo | PhotoLibraryUI/Source/Helpers/MediaImageManager.swift:115-158 | as for images, with an AV-asset fetch |
| MediaImages.MediaImageManager.RequestPreview | PhotoLibraryUI/Source/Helpers/MediaImageManager.swift:90-95 | starts a player-item fetch (network allowed, fast format) and leaves the ledger and observers untouched |
| MediaImages.MediaImageManager.NotifyProgressObservers | PhotoLibraryUI/Source/Helpers/MediaImageManager.swift:160-164 | the progress goes to exactly the observers of the asset, once each |
| MediaImages.MediaImageManager.ProgressEvent | PhotoLibraryUI/Source/Helpers/MediaImageManager.swift:50-58 | a progress event of a request reaches exactly the observers of the request's asset, once each |
| MediaImages.MediaImageManager.CompleteImageRequest | PhotoLibraryUI/Source/Helpers/MediaImageManager.swift:60-85 | cancelled: nothing is called and the ledger is unchanged; otherwise the result closure gets the orientation and URL once, and a tracked asset loses its entry and its observers, each after a final progress of 1 |
| MediaImages.MediaImageManager.CompleteVideoRequest | PhotoLibraryUI/Source/Helpers/MediaImageManager.swift:132-155 | the result closure gets the URL unless cancelled; even when cancelled, a tracked asset loses its entry and its observers, with no final progress |
| MediaImages.MediaImageManager.CompletePreviewRequest | PhotoLibraryUI/Source/Helpers/MediaImageManager.swift:95-112 | the result closure gets the preview outcome; ledger and observers are untouched |
| MediaImages.FanOutScenario | PhotoLibraryUI/Source/Helpers/MediaImageManager.swift:43-88 | with two observers: the repeated request starts nothing, progress reaches both once, and completion gives both a final 1 and untracks the asset |
| MediaImages.CancelTwiceScenario | PhotoLibraryUI/Source/Helpers/MediaImageManager.swift:31-41 | the first cancel cancels the recorded id, the second does nothing, the cancelled completion calls nothing, and a new request gets a fresh id |
| MediaImages.StaleVideoCompletionScenario | PhotoLibraryUI/Source/Helpers/MediaImageManager.swift:132-142 | a late, cancelled completion of a video download removes the entry of the download requested after the cancel |
| MediaImages.StaleImageCompletionScenario | PhotoLibraryUI/Source/Helpers/MediaImageManager.swift:60-85 | a late image completion leaves the re-requested asset tracked iff it is flagged as cancelled; an unflagged one delivers its result and removes the entry |
| Subscribable.SubscribableValue.constructor | PhotoLibraryUI/Source/Theming/SubscribableValue.swift:30-32 | `init` stores the value with no subscriptions, notifying nobody |
| Subscribable.SubscribableValue.Subscribe | PhotoLibraryUI/Source/Theming/SubscribableValue.swift:34-36 | registers the handler under the object, replacing its earlier one, keeping the others, leaving the value unchanged |
| Subscribable.SubscribableValue.SetValue | PhotoLibraryUI/Source/Theming/SubscribableValue.swift:20-27 | stores the value, then calls every registered closure exactly once with it |
| Subscribable.ResubscribeScenario | PhotoLibraryUI/Source/Theming/SubscribableValue.swift:34-36 | an object has at most one subscription: after subscribing twice, an assignment calls only the second closure |
| PieProgress.Clamp | PhotoLibraryUI/Source/Views/PieProgressView.swift:28-31 | the stored progress lies in [0, 1]; in-range values are kept; values below 0 become 0 and above 1 become 1 |
| PieProgress.PieProgressView.constructor | PhotoLibraryUI/Source/Views/PieProgressView.swift:45-71 | a fresh view has progress 0, both hiding flags on, thickness and margin 2, and is hidden |
| PieProgress.PieProgressView.Invalidate | PhotoLibraryUI/Source/Views/PieProgressView.swift:82-97 | the layers mirror progress, margin and thickness; the view is hidden iff empty with hiding at minimum on, or full with hiding at maximum on |
| PieProgress.PieProgressView.SetHidesWhenMax | PhotoLibraryUI/Source/Views/PieProgressView.swift:14-16 | stores the flag and re-invalidates |
| PieProgress.PieProgressView.SetHidesWhenMin | PhotoLibraryUI/Source/Views/PieProgressView.swift:19-21 | stores the flag and re-invalidates |
| PieProgress.PieProgressView.SetProgress | PhotoLibraryUI/Source/Views/PieProgressView.swift:23-31 | stores the clamped value and re-invalidates |
| PieProgress.PieProgressView.SetStrokeThickness | PhotoLibraryUI/Source/Views/PieProgressView.swift:34-36 | stores the thickness and re-invalidates |
| PieProgress.PieProgressView.SetMargin | PhotoLibraryUI/Source/Views/PieProgressView.swift:39-41 | stores the margin and re-invalidates |
| PieProgress.HiddenAfterSettingProgress | PhotoLibraryUI/Source/Views/PieProgressView.swift:28-31 | after setting progress v, the view is hidden iff v <= 0 with hiding at minimum on, or v >= 1 with hiding at maximum on |
| PieProgress.ProgressScenario | PhotoLibraryUI/Source/Views/PieProgressView.swift:82-97 | a fresh view is hidden, shows at a progress strictly between 0 and 1, and hides again at full progress |

## Left out

- **MD5 and the rendering of the URL.** The MD5 digest (`hashed(using:)`, `hashValue(output:)`) is the parameter `digest`: any function from the URL value to 32 hex digits. The rendering of `absoluteString` and percent-encoding are part of that parameter.
- **Size conversion.** `CGSize` to `Int` (`Int(size.width)`) is not modelled: sizes are whole numbers already.
- **`BigInt(_:radix:)`.** Only hex digits are modelled. A sign or prefix cannot occur in a digest.
- **String ordering.** Swift orders `String`s by Unicode canonical equivalence. The model compares code points lexicographically, which agrees on the ASCII names `width`, `height` and `mode`.
- **Threading.** `Thread.isMainThread` checks and `DispatchQueue.main.sync` re-dispatch are not modelled. Every event runs to completion, one at a time.
- **Weak references.**
  - Weak and unowned captures of the manager are not modelled.
  - The weak keys of `NSMapTable.weakToStrongObjects()` are not modelled (deallocated subscribers are not removed).
  - The concurrent `dispatchQueue` of `SubscribableValue` is not modelled.
- **Synchronous completion.** A completion arriving before `request(image:)` or `request(video:)` records its id is not modelled. Completions are events that come after the request returns.
- **Fatal errors.** The `fatalError` paths (missing file URL, a video result that is not an `AVURLAsset`) become preconditions of `CompleteImageRequest` and `CompleteVideoRequest`.
- **File-system caching.** `assetUrl(for:)`, `assetsUrl`, JSON decoding and the cache directory are not modelled. Loading a cached record is the parameter `load` of `FetchAssets`.
- **Timestamps.** `creationDate`, `modificationDate` and `prepareForUpdate` depend on the clock and are not modelled.
- **Coalescing in `ImageManager`.** The comments describe coalescing of requests with equal ids, but the code does not do it, so the model does not either.
- **`ImageManager` no-ops.** `CancelImageRequest`, `StartCachingImages`, `StopCachingImages` and `StopCachingImagesForAllAssets` have empty bodies. They have no contract beyond changing nothing (no `modifies`); `RequestAfterCancel` shows that they do not influence later ids.
- **`ImageFetchResponse`.** Only a plain record is modelled, with the flag values 1 and 2. The image is a token.
- **Drawing.** The drawing of `PieProgressView` is not modelled: `PieProgressLayer`, tint colours, corner radius, `layoutSubviews` frame updates and `tintColorDidChange`.
- **Numbers.** Progress values are reals. There is no NaN or rounding of `CGFloat` or `Double`.
- **Value semantics of `ImageFetchResult`.** It is a Swift struct, modelled as a class whose one field is reassigned.
- **Enumeration order.** Dictionary and map-table enumeration order is not modelled. The closures are called in an unspecified order, each exactly once.
- **Unchecked indices.** `index(after:)` is not bounds-checked, as for arrays. An out-of-range subscript or range traps in Swift, so these are preconditions.
