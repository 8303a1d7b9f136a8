/**
 * The asset exploration screen: the search filter over the loaded assets and
 * the selection toggle. Loading the assets from the server is not modelled;
 * the assets are an input.
 */
module ExplorationView {
  import opened Common
  import opened Lists

  /** One row of the asset table. */
  datatype Asset = Asset(id: string, name: string, price: string, change: string)

  /** `toLowerCase` on one character, restricted to ASCII letters. */
  function LowerChar(c: char): char {
    if 'A' <= c <= 'Z' then (c as int + 32) as char else c
  }

  function Lower(s: string): (r: string)
    ensures |r| == |s|
    ensures forall i :: 0 <= i < |s| ==> r[i] == LowerChar(s[i])
  {
    seq(|s|, i requires 0 <= i < |s| => LowerChar(s[i]))
  }

  /** `part` occurs in `s` starting at position `i`. */
  predicate OccursAt(s: string, part: string, i: int) {
    0 <= i && i + |part| <= |s| && s[i..i + |part|] == part
  }

  /** `s.includes(part)`: `part` occurs in `s` at some position. */
  predicate Includes(s: string, part: string) {
    exists i | 0 <= i <= |s| :: OccursAt(s, part, i)
  }

  /** The search test: the lowercased name or the lowercased id contains the lowercased term. */
  predicate MatchesSearch(asset: Asset, term: string) {
    Includes(Lower(asset.name), Lower(term)) || Includes(Lower(asset.id), Lower(term))
  }

  function SearchTest(term: string): Asset -> bool {
    asset => MatchesSearch(asset, term)
  }

  /** `filteredAssets`: the assets the table shows for a search term. */
  function FilteredAssets(assets: seq<Asset>, term: string): (shown: seq<Asset>)
    ensures |shown| <= |assets|
    ensures forall a :: a in shown <==> a in assets && MatchesSearch(a, term)
  {
    Filter(assets, SearchTest(term))
  }

  /** The shown assets keep the order they were loaded in. */
  lemma FilteredAssetsKeepOrder(front: seq<Asset>, back: seq<Asset>, term: string)
    ensures FilteredAssets(front + back, term) == FilteredAssets(front, term) + FilteredAssets(back, term)
  {
    FilterConcat(front, back, SearchTest(term));
  }

  /** An empty search term shows every asset. */
  lemma EmptySearchShowsAll(assets: seq<Asset>)
    ensures FilteredAssets(assets, "") == assets
  {
    forall a | a in assets ensures SearchTest("")(a) {
      assert OccursAt(Lower(a.name), Lower(""), 0);
    }
    FilterKeepsAll(assets, SearchTest(""));
  }

  /** The search ignores the case of the term: terms equal up to case show the same assets. */
  lemma SearchIgnoresCase(assets: seq<Asset>, term1: string, term2: string)
    requires Lower(term1) == Lower(term2)
    ensures FilteredAssets(assets, term1) == FilteredAssets(assets, term2)
  {
    FilterAgreeing(assets, SearchTest(term1), SearchTest(term2));
  }

  function Other(assetId: string): string -> bool {
    id => id != assetId
  }

  /**
   * `toggleAsset`: a selected id is removed (every occurrence of it), an
   * unselected one is appended at the end.
   */
  function ToggleAsset(selected: seq<string>, assetId: string): (next: seq<string>)
    ensures assetId in next <==> assetId !in selected
    ensures forall id :: id != assetId ==> (id in next <==> id in selected)
    ensures assetId !in selected ==> |next| == |selected| + 1 && next[..|selected|] == selected
  {
    if assetId in selected then Filter(selected, Other(assetId)) else selected + [assetId]
  }

  /** A toggle leaves the other ids, and their relative order, exactly as they were. */
  lemma ToggleKeepsOthers(selected: seq<string>, assetId: string)
    ensures Filter(ToggleAsset(selected, assetId), Other(assetId)) == Filter(selected, Other(assetId))
  {
    if assetId in selected {
      FilterIdempotent(selected, Other(assetId));
    } else {
      FilterConcat(selected, [assetId], Other(assetId));
    }
  }

  /** Toggling an unselected id twice gives back the original selection. */
  lemma ToggleTwiceRestores(selected: seq<string>, assetId: string)
    requires assetId !in selected
    ensures ToggleAsset(ToggleAsset(selected, assetId), assetId) == selected
  {
    FilterConcat(selected, [assetId], Other(assetId));
    FilterKeepsAll(selected, Other(assetId));
  }

  /** A selection without duplicates stays without duplicates. */
  lemma ToggleKeepsNoDuplicates(selected: seq<string>, assetId: string)
    requires NoDuplicates(selected)
    ensures NoDuplicates(ToggleAsset(selected, assetId))
  {
    if assetId in selected {
      FilterNoDuplicates(selected, Other(assetId));
    }
  }

  /**
   * The "Simular Inversión" button: shown only for a non-empty selection, and
   * when pressed it hands `onStartSimulation` the selection as it is.
   */
  function StartSimulationRequest(selected: seq<string>): (request: Option<seq<string>>)
    ensures request.Some? <==> |selected| > 0
    ensures request.Some? ==> request.value == selected
  {
    if |selected| > 0 then Some(selected) else None
  }
}
