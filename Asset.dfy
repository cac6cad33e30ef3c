/**
 * Assets and the request-id fingerprint of `Caching/Asset.swift`.
 *
 * An asset's request id is derived from a canonical URL `asset://<localIdentifier>?...`
 * whose query carries `width` and `height` when a target size is given and `mode` when a
 * content mode is given, the items sorted by name. The URL is hashed with MD5, the hex
 * digest parsed in radix 16 and the result truncated to 32 bits. MD5 itself is a
 * parameter `digest` of the model: any function giving 32 hex digits.
 */
module Assets {
  import opened Optional
  import opened Hex
  import Strings

  type Url = string

  /** A target size in whole pixels: `CGSize` after the code's `Int(_:)` conversions. */
  datatype Size = Size(width: int, height: int)

  /** "Return the original image": the zero size, `CGSize.zero`. */
  const AssetMaximumSize: Size := Size(0, 0)

  /** How an image is fitted to a requested size; the raw values are the case names. */
  datatype ContentMode = AspectFit | AspectFill
  {
    function RawValue(): string
    {
      match this
      case AspectFit => "aspectFit"
      case AspectFill => "aspectFill"
    }
  }

  const DefaultContentMode: ContentMode := AspectFit

  /** The raw-value initialiser `ContentMode(rawValue:)`. */
  function ContentModeFromRawValue(s: string): (r: Option<ContentMode>)
    ensures r.Some? ==> r.value.RawValue() == s
    ensures r.None? ==> forall m: ContentMode :: m.RawValue() != s
  {
    if s == "aspectFit" then Some(AspectFit)
    else if s == "aspectFill" then Some(AspectFill)
    else None
  }

  /** The fixed identifier every placeholder asset carries. */
  const PlaceholderIdentifier: string := "8106768B-BAA7-48A4-A338-5165FF27E7F4"

  /**
   * The two kinds of asset: an image asset decoded from the cache, and the placeholder
   * that stands in for a URL whose cached record could not be loaded.
   */
  datatype Asset =
    | ImageAsset(identifier: string, url: Url, pixelWidth: int, pixelHeight: int)
    | PlaceholderAsset(url: Url)
  {
    function LocalIdentifier(): string
    {
      match this
      case ImageAsset(identifier, _, _, _) => identifier
      case PlaceholderAsset(_) => PlaceholderIdentifier
    }

    function OriginalUrl(): Url
    {
      url
    }
  }

  /** What decoding a cached record yields: an image asset. */
  type StoredAsset = a: Asset | a.ImageAsset? witness ImageAsset("", "", 0, 0)

  datatype QueryItem = QueryItem(name: string, value: string)

  /** The URL components the fingerprint is taken of: scheme, host and query items. */
  datatype AssetUrl = AssetUrl(scheme: string, host: string, queryItems: seq<QueryItem>)

  /** MD5 of a URL's absolute string, as 32 hex digits. */
  type Digest = AssetUrl -> Md5Hex

  ghost predicate SortedByName(items: seq<QueryItem>)
  {
    forall i, j | 0 <= i < j < |items| :: !Strings.Less(items[j].name, items[i].name)
  }

  ghost predicate DistinctNames(items: seq<QueryItem>)
  {
    forall i, j | 0 <= i < j < |items| :: items[i].name != items[j].name
  }

  /**
   * The canonical query: exactly the items the request carries, in the order the sort
   * by name leaves them (`height` < `mode` < `width`).
   */
  function CanonicalItems(targetSize: Option<Size>, contentMode: Option<ContentMode>): seq<QueryItem>
  {
    (if targetSize.Some? then [QueryItem("height", Strings.DecimalString(targetSize.value.height))] else [])
    + (if contentMode.Some? then [QueryItem("mode", contentMode.value.RawValue())] else [])
    + (if targetSize.Some? then [QueryItem("width", Strings.DecimalString(targetSize.value.width))] else [])
  }

  function CanonicalUrl(localIdentifier: string, targetSize: Option<Size>, contentMode: Option<ContentMode>): AssetUrl
  {
    AssetUrl("asset", localIdentifier, CanonicalItems(targetSize, contentMode))
  }

  /** The request id of an asset with this identifier, target size and content mode. */
  function Fingerprint(digest: Digest, localIdentifier: string, targetSize: Option<Size>, contentMode: Option<ContentMode>): UInt32
  {
    TruncatingIfNeeded(HexValue(digest(CanonicalUrl(localIdentifier, targetSize, contentMode))))
  }

  /** Inserts `x` after every item whose name does not sort after it. */
  method InsertByName(items: seq<QueryItem>, x: QueryItem) returns (r: seq<QueryItem>)
    requires SortedByName(items)
    ensures SortedByName(r)
    ensures multiset(r) == multiset(items) + multiset{x}
  {
    var k := 0;
    while k < |items| && !Strings.Less(x.name, items[k].name)
      invariant 0 <= k <= |items|
      invariant forall i | 0 <= i < k :: !Strings.Less(x.name, items[i].name)
    {
      k := k + 1;
    }
    r := items[..k] + [x] + items[k..];
    NothingAfterSortsBefore(items, k, x);
    SortedInsertion(items, k, x);
    assert items == items[..k] + items[k..];
  }

  /** The items from the first one that sorts after `x` on all do not sort before `x`. */
  lemma NothingAfterSortsBefore(items: seq<QueryItem>, k: nat, x: QueryItem)
    requires SortedByName(items) && k <= |items|
    requires k < |items| ==> Strings.Less(x.name, items[k].name)
    ensures forall j | k <= j < |items| :: !Strings.Less(items[j].name, x.name)
  {
    forall j | k <= j < |items|
      ensures !Strings.Less(items[j].name, x.name)
    {
      if Strings.Less(items[j].name, x.name) {
        Strings.LessTransitive(items[j].name, x.name, items[k].name);
        if j == k { Strings.LessIrreflexive(items[k].name); }
        assert false;
      }
    }
  }

  /** Putting `x` between the items that it does not sort before and those that do not sort before it keeps the order. */
  lemma SortedInsertion(items: seq<QueryItem>, k: nat, x: QueryItem)
    requires SortedByName(items) && k <= |items|
    requires forall i | 0 <= i < k :: !Strings.Less(x.name, items[i].name)
    requires forall j | k <= j < |items| :: !Strings.Less(items[j].name, x.name)
    ensures SortedByName(items[..k] + [x] + items[k..])
  {
    var r := items[..k] + [x] + items[k..];
    assert forall i | 0 <= i < |r| :: r[i] == if i < k then items[i] else if i == k then x else items[i - 1];
  }

  /** `queryItems.sort { $0.name < $1.name }`, as an insertion sort. */
  method SortByName(items: seq<QueryItem>) returns (sorted: seq<QueryItem>)
    ensures SortedByName(sorted)
    ensures multiset(sorted) == multiset(items)
  {
    sorted := [];
    var n := 0;
    while n < |items|
      invariant 0 <= n <= |items|
      invariant SortedByName(sorted)
      invariant multiset(sorted) == multiset(items[..n])
    {
      sorted := InsertByName(sorted, items[n]);
      assert items[..n + 1] == items[..n] + [items[n]];
      n := n + 1;
    }
    assert items[..n] == items;
  }

  /** Items with distinct names have only one order sorted by name. */
  lemma {:induction false} SortedUnique(a: seq<QueryItem>, b: seq<QueryItem>)
    requires SortedByName(a) && SortedByName(b) && DistinctNames(a)
    requires multiset(a) == multiset(b)
    ensures a == b
    decreases |a|
  {
    assert |a| == |multiset(a)| == |multiset(b)| == |b|;
    if |a| > 0 {
      SortedHeadsAgree(a, b);
      MultisetTail(a, b);
      SortedTail(a);
      SortedTail(b);
      SortedUnique(a[1..], b[1..]);
      assert a == [a[0]] + a[1..] && b == [b[0]] + b[1..];
    }
  }

  lemma SortedHeadsAgree(a: seq<QueryItem>, b: seq<QueryItem>)
    requires SortedByName(a) && SortedByName(b) && DistinctNames(a)
    requires multiset(a) == multiset(b) && |a| > 0
    ensures |b| > 0 && a[0] == b[0]
  {
    assert a[0] in multiset(b);
    var m :| 0 <= m < |b| && b[m] == a[0];
    assert b[0] in multiset(a);
    var k :| 0 <= k < |a| && a[k] == b[0];
    if a[0].name != b[0].name {
      Strings.LessTotal(a[0].name, b[0].name);
      if k == 0 { assert false; }
      if m == 0 { assert false; }
      assert false;
    }
    if k != 0 { assert false; }
  }

  lemma MultisetTail(a: seq<QueryItem>, b: seq<QueryItem>)
    requires multiset(a) == multiset(b) && |a| > 0 && |b| > 0 && a[0] == b[0]
    ensures multiset(a[1..]) == multiset(b[1..])
  {
    assert a == [a[0]] + a[1..] && b == [b[0]] + b[1..];
    assert multiset(a[1..]) == multiset(a) - multiset{a[0]};
    assert multiset(b[1..]) == multiset(b) - multiset{a[0]};
  }

  lemma SortedTail(a: seq<QueryItem>)
    requires |a| > 0
    ensures SortedByName(a) ==> SortedByName(a[1..])
    ensures DistinctNames(a) ==> DistinctNames(a[1..])
  {
    if SortedByName(a) {
      forall i, j | 0 <= i < j < |a[1..]| ensures !Strings.Less(a[1..][j].name, a[1..][i].name) {
        assert a[1..][j] == a[j + 1] && a[1..][i] == a[i + 1];
      }
    }
    if DistinctNames(a) {
      forall i, j | 0 <= i < j < |a[1..]| ensures a[1..][i].name != a[1..][j].name {
        assert a[1..][j] == a[j + 1] && a[1..][i] == a[i + 1];
      }
    }
  }

  lemma CanonicalItemsSorted(targetSize: Option<Size>, contentMode: Option<ContentMode>)
    ensures SortedByName(CanonicalItems(targetSize, contentMode))
    ensures DistinctNames(CanonicalItems(targetSize, contentMode))
  {
    var items := CanonicalItems(targetSize, contentMode);
    NameOrder();
    if targetSize.Some? && contentMode.Some? {
      assert |items| == 3 && items[0].name == "height" && items[1].name == "mode" && items[2].name == "width";
    } else if targetSize.Some? {
      assert |items| == 2 && items[0].name == "height" && items[1].name == "width";
    } else {
      assert |items| <= 1;
    }
  }

  /** The three query names in the order `<` puts them. */
  lemma NameOrder()
    ensures Strings.Less("height", "mode") && Strings.Less("mode", "width") && Strings.Less("height", "width")
    ensures !Strings.Less("mode", "height") && !Strings.Less("width", "mode") && !Strings.Less("width", "height")
    ensures "height" != "mode" && "mode" != "width" && "height" != "width"
  {
    assert "height"[0] == 'h' && "mode"[0] == 'm' && "width"[0] == 'w';
  }

  /**
   * `requestId(targetSize:contentMode:)`: builds the URL components step by step, sorts
   * the query items by name, hashes the URL and truncates the parsed digest. The result
   * is the fingerprint of the asset's identifier and the two parameters; the asset's
   * original URL plays no part.
   */
  method RequestId(digest: Digest, asset: Asset, targetSize: Option<Size>, contentMode: Option<ContentMode>)
    returns (id: UInt32)
    ensures id == Fingerprint(digest, asset.LocalIdentifier(), targetSize, contentMode)
  {
    var queryItems := QueryItemsOf(targetSize, contentMode);
    var sorted := SortByName(queryItems);
    SortedIsCanonical(sorted, targetSize, contentMode);
    var components := AssetUrl("asset", asset.LocalIdentifier(), sorted);
    var hex := digest(components);
    var parsed := ParseHex(hex);
    id := TruncatingIfNeeded(parsed.value);
  }

  /** The query items in the order `requestId` appends them: width, height, then mode. */
  method QueryItemsOf(targetSize: Option<Size>, contentMode: Option<ContentMode>) returns (queryItems: seq<QueryItem>)
    ensures multiset(queryItems) == multiset(CanonicalItems(targetSize, contentMode))
  {
    queryItems := [];
    if targetSize.Some? {
      queryItems := queryItems + [QueryItem("width", Strings.DecimalString(targetSize.value.width))];
      queryItems := queryItems + [QueryItem("height", Strings.DecimalString(targetSize.value.height))];
    }
    if contentMode.Some? {
      queryItems := queryItems + [QueryItem("mode", contentMode.value.RawValue())];
    }
  }

  /** Sorting the query items by name yields exactly the canonical query. */
  lemma SortedIsCanonical(sorted: seq<QueryItem>, targetSize: Option<Size>, contentMode: Option<ContentMode>)
    requires SortedByName(sorted)
    requires multiset(sorted) == multiset(CanonicalItems(targetSize, contentMode))
    ensures sorted == CanonicalItems(targetSize, contentMode)
  {
    CanonicalItemsSorted(targetSize, contentMode);
    SortedUnique(CanonicalItems(targetSize, contentMode), sorted);
  }

  /** The id keeps the last eight hex digits of the digest, and nothing else of it. */
  lemma FingerprintIsLowDigits(digest: Digest, localIdentifier: string, targetSize: Option<Size>, contentMode: Option<ContentMode>)
    ensures var hex := digest(CanonicalUrl(localIdentifier, targetSize, contentMode));
            IsHexString(hex[24..]) && Fingerprint(digest, localIdentifier, targetSize, contentMode) == HexValue(hex[24..])
  {
    LowEightDigits(digest(CanonicalUrl(localIdentifier, targetSize, contentMode)));
  }

  /**
   * The canonical URL determines the identifier, the size and the mode: two requests
   * share one exactly when all three agree, so equal ids for different requests can come
   * only from the digest and the truncation.
   */
  lemma CanonicalUrlInjective(id1: string, size1: Option<Size>, mode1: Option<ContentMode>,
                              id2: string, size2: Option<Size>, mode2: Option<ContentMode>)
    ensures CanonicalUrl(id1, size1, mode1) == CanonicalUrl(id2, size2, mode2)
            <==> id1 == id2 && size1 == size2 && mode1 == mode2
  {
    var items1, items2 := CanonicalItems(size1, mode1), CanonicalItems(size2, mode2);
    if items1 == items2 {
      assert |items1| == (if size1.Some? then 2 else 0) + (if mode1.Some? then 1 else 0);
      assert |items2| == (if size2.Some? then 2 else 0) + (if mode2.Some? then 1 else 0);
      assert size1.Some? == size2.Some? && mode1.Some? == mode2.Some?;
      if size1.Some? {
        assert items1[0] == items2[0] && items1[|items1| - 1] == items2[|items2| - 1];
        Strings.DecimalStringInjective(size1.value.height, size2.value.height);
        Strings.DecimalStringInjective(size1.value.width, size2.value.width);
      }
      if mode1.Some? {
        var i := if size1.Some? then 1 else 0;
        assert items1[i] == items2[i];
        assert mode1.value.RawValue() == mode2.value.RawValue();
      }
    }
  }

  /**
   * The query carries `width` and `height` exactly when a size is given, and `mode`
   * exactly when a content mode is given.
   */
  lemma CanonicalItemsPresence(targetSize: Option<Size>, contentMode: Option<ContentMode>)
    ensures var items := CanonicalItems(targetSize, contentMode);
            && ((exists i | 0 <= i < |items| :: items[i].name == "width") <==> targetSize.Some?)
            && ((exists i | 0 <= i < |items| :: items[i].name == "height") <==> targetSize.Some?)
            && ((exists i | 0 <= i < |items| :: items[i].name == "mode") <==> contentMode.Some?)
  {
    var items := CanonicalItems(targetSize, contentMode);
    assert targetSize.Some? ==> items[0].name == "height" && items[|items| - 1].name == "width";
    assert contentMode.Some? ==> items[if targetSize.Some? then 1 else 0].name == "mode";
  }

  /**
   * `AssetMaximumSize` is the zero size, so asking for the original image canonicalises
   * like an explicit 0 x 0 request, while leaving the size out (as data requests do)
   * gives a different URL.
   */
  lemma MaximumSizeCanonicalisation(localIdentifier: string, contentMode: Option<ContentMode>)
    ensures CanonicalUrl(localIdentifier, Some(AssetMaximumSize), contentMode)
            == CanonicalUrl(localIdentifier, Some(Size(0, 0)), contentMode)
    ensures CanonicalItems(Some(AssetMaximumSize), None) == [QueryItem("height", "0"), QueryItem("width", "0")]
    ensures CanonicalUrl(localIdentifier, Some(AssetMaximumSize), contentMode)
            != CanonicalUrl(localIdentifier, None, contentMode)
  {
    CanonicalUrlInjective(localIdentifier, Some(AssetMaximumSize), contentMode, localIdentifier, None, contentMode);
  }

  /** Placeholders share one identifier, so their request ids never depend on their URLs. */
  lemma PlaceholderFingerprints(digest: Digest, url1: Url, url2: Url, targetSize: Option<Size>, contentMode: Option<ContentMode>)
    ensures PlaceholderAsset(url1).LocalIdentifier() == PlaceholderAsset(url2).LocalIdentifier() == PlaceholderIdentifier
    ensures Fingerprint(digest, PlaceholderAsset(url1).LocalIdentifier(), targetSize, contentMode)
            == Fingerprint(digest, PlaceholderAsset(url2).LocalIdentifier(), targetSize, contentMode)
  {
  }

  /** The asset for one URL: its decoded cached record, or else a placeholder for the URL. */
  function LoadAsset(url: Url, load: Url -> Option<StoredAsset>): (a: Asset)
    ensures load(url).None? ==> a.PlaceholderAsset? && a.OriginalUrl() == url && a.LocalIdentifier() == PlaceholderIdentifier
    ensures load(url).Some? ==> a == load(url).value
  {
    match load(url)
    case Some(stored) => stored
    case None => PlaceholderAsset(url)
  }

  /**
   * `ImageAsset.fetchAssets(forUrls:)`. Reading and decoding the cached record of a URL
   * is the parameter `load`, `None` standing for a read or decoding error.
   */
  function FetchAssets(urls: seq<Url>, load: Url -> Option<StoredAsset>): (assets: seq<Asset>)
    ensures |assets| == |urls|
    ensures forall i | 0 <= i < |urls| :: assets[i] == LoadAsset(urls[i], load)
  {
    if urls == [] then [] else [LoadAsset(urls[0], load)] + FetchAssets(urls[1..], load)
  }

  /** Fetching is item by item: fetching a concatenation concatenates the results. */
  lemma {:induction false} FetchAssetsAppend(urls1: seq<Url>, urls2: seq<Url>, load: Url -> Option<StoredAsset>)
    ensures FetchAssets(urls1 + urls2, load) == FetchAssets(urls1, load) + FetchAssets(urls2, load)
    decreases |urls1|
  {
    if urls1 == [] {
      assert urls1 + urls2 == urls2;
    } else {
      assert (urls1 + urls2)[1..] == urls1[1..] + urls2;
      FetchAssetsAppend(urls1[1..], urls2, load);
    }
  }
}
