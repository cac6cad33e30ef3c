/**
 * `ImageFetchResult`: a random-access, mutable, range-replaceable collection of assets,
 * backed by a Swift array held in `assets`.
 */
module FetchResults {
  import Assets

  /** `assets.replaceSubrange(lo..<hi, with: elements)` on a Swift array. */
  function Replaced(s: seq<Assets.Asset>, lo: int, hi: int, elements: seq<Assets.Asset>): (r: seq<Assets.Asset>)
    requires 0 <= lo <= hi <= |s|
    ensures |r| == |s| - (hi - lo) + |elements|
    ensures forall i | 0 <= i < lo :: r[i] == s[i]
    ensures forall i | 0 <= i < |elements| :: r[lo + i] == elements[i]
    ensures forall j | hi <= j < |s| :: r[j - hi + lo + |elements|] == s[j]
  {
    s[..lo] + elements + s[hi..]
  }

  class ImageFetchResult {
    var assets: seq<Assets.Asset>

    /** `init()`: the empty collection. */
    constructor ()
      ensures assets == []
      ensures StartIndex() == EndIndex()
    {
      assets := [];
    }

    /** `init(_:)`: holds the given assets, in order. */
    constructor FromAssets(assets: seq<Assets.Asset>)
      ensures this.assets == assets
    {
      this.assets := assets;
    }

    function StartIndex(): (i: int)
      reads this
      ensures i == 0
    {
      0
    }

    function EndIndex(): (i: int)
      reads this
      ensures i == |assets| && i >= StartIndex()
    {
      |assets|
    }

    /** `index(after:)`, as an array's: the next position, unchecked. */
    function IndexAfter(i: int): (j: int)
      ensures j == i + 1
    {
      i + 1
    }

    /** The subscript getter; an out-of-range position traps, so it is excluded. */
    function Get(position: int): (a: Assets.Asset)
      reads this
      requires StartIndex() <= position < EndIndex()
      ensures a == assets[position]
    {
      assets[position]
    }

    /** The subscript setter: replaces the one element at `position`. */
    method Set(position: int, newValue: Assets.Asset)
      requires StartIndex() <= position < EndIndex()
      modifies this
      ensures |assets| == |old(assets)|
      ensures Get(position) == newValue
      ensures forall i | 0 <= i < |assets| && i != position :: assets[i] == old(assets)[i]
    {
      assets := assets[position := newValue];
    }

    /**
     * `replaceSubrange(lo..<hi, with:)`: keeps the elements before `lo` and from `hi` on,
     * and puts `newElements` between them. A range outside the collection traps.
     */
    method ReplaceSubrange(lo: int, hi: int, newElements: seq<Assets.Asset>)
      requires StartIndex() <= lo <= hi <= EndIndex()
      modifies this
      ensures assets == Replaced(old(assets), lo, hi, newElements)
    {
      assets := assets[..lo] + newElements + assets[hi..];
    }
  }

  /** Replacing a range and putting its old contents back restores the collection. */
  lemma ReplaceRestores(s: seq<Assets.Asset>, lo: int, hi: int, elements: seq<Assets.Asset>)
    requires 0 <= lo <= hi <= |s|
    ensures Replaced(Replaced(s, lo, hi, elements), lo, lo + |elements|, s[lo..hi]) == s
  {
    var t := Replaced(s, lo, hi, elements);
    assert t[..lo] == s[..lo];
    assert t[lo + |elements|..] == s[hi..];
    assert s == s[..lo] + s[lo..hi] + s[hi..];
  }
}
