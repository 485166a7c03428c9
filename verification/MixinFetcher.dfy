/** server/src/database/seeder/mixin-fetcher.ts: one asset version per symbol.
    Upper-casing and the chain priority list are parameters. */
module MixinFetcher {
  import opened Outcomes

  datatype Asset = Asset(assetId: string, chainId: string, symbol: string, details: string)

  // ---- what the two passes are to compute ----

  /** The versions of one symbol, in the order of the response. */
  function VersionsOf(data: seq<Asset>, upper: string -> string, symbol: string): seq<Asset> {
    if data == [] then [] else
      VersionsOf(data[..|data| - 1], upper, symbol)
      + if upper(data[|data| - 1].symbol) == symbol then [data[|data| - 1]] else []
  }

  function Symbols(data: seq<Asset>, upper: string -> string): set<string> { set a | a in data :: upper(a.symbol) }

  predicate IsNative(a: Asset) { a.assetId == a.chainId }

  /** `CHAIN_PRIORITY.indexOf(chainId)`. */
  function Rank(priority: seq<string>, chainId: string): (r: int)
    ensures -1 <= r < |priority|
    ensures r >= 0 ==> priority[r] == chainId
    ensures r == -1 <==> chainId !in priority
    ensures forall k | 0 <= k < r :: priority[k] != chainId
  {
    if priority == [] then -1
    else if priority[0] == chainId then 0
    else
      assert priority == [priority[0]] + priority[1..];
      var r := Rank(priority[1..], chainId);
      if r < 0 then -1 else r + 1
  }

  /** `i` is the version to use: the first native one; without one, the first of least
      rank among the ranked; without any of those, the first. */
  ghost predicate IsSelected(versions: seq<Asset>, priority: seq<string>, i: nat) {
    && i < |versions|
    && if exists v <- versions :: IsNative(v) then
         IsNative(versions[i]) && forall k | 0 <= k < i :: !IsNative(versions[k])
       else if exists v <- versions :: Rank(priority, v.chainId) >= 0 then
         var r := Rank(priority, versions[i].chainId);
         && r >= 0
         && (forall k | 0 <= k < |versions| :: var q := Rank(priority, versions[k].chainId); q < 0 || r <= q)
         && (forall k | 0 <= k < i :: Rank(priority, versions[k].chainId) != r)
       else i == 0
  }

  /** The selection is unique. */
  lemma SelectionIsUnique(versions: seq<Asset>, priority: seq<string>, i: nat, j: nat)
    requires IsSelected(versions, priority, i) && IsSelected(versions, priority, j)
    ensures i == j
  {
    hide Rank;
    assert versions[i] in versions && versions[j] in versions;
  }

  /** With one version there is nothing to choose: the shortcut is what the full pass does. */
  lemma SingleVersionIsSelected(versions: seq<Asset>, priority: seq<string>)
    requires |versions| == 1
    ensures IsSelected(versions, priority, 0)
  {
    assert versions[0] in versions;
    assert forall v <- versions :: v == versions[0];
  }

  // ---- the code ----

  ghost predicate Grouped(data: seq<Asset>, upper: string -> string, order: seq<string>,
                          groups: map<string, seq<Asset>>) {
    && groups.Keys == Symbols(data, upper) && (forall s :: s in order <==> s in groups)
    && (forall i, j | 0 <= i < j < |order| :: order[i] != order[j])
    && (forall s <- groups :: groups[s] == VersionsOf(data, upper, s) && groups[s] != [])
  }

  predicate IsNativeOf(a: Asset, chain: string) { IsNative(a) && a.assetId == chain }

  /** The native assets of the response, by chain; of several for one chain, the last. */
  ghost predicate ChainsOf(data: seq<Asset>, chains: map<string, Asset>) {
    && (forall a <- data :: IsNative(a) ==> a.assetId in chains)
    && (forall c <- chains ::
          exists i | 0 <= i < |data| :: data[i] == chains[c] && IsNativeOf(data[i], c) && NoneAfter(data, c, i))
  }

  predicate NoneAfter(data: seq<Asset>, chain: string, i: nat) {
    forall k | i < k < |data| :: !IsNativeOf(data[k], chain)
  }

  lemma {:induction false} StrangerHasNoVersions(data: seq<Asset>, upper: string -> string, symbol: string)
    requires symbol !in Symbols(data, upper)
    ensures VersionsOf(data, upper, symbol) == []
  {
    if data != [] {
      var n := |data| - 1;
      assert data == data[..n] + [data[n]];
      assert Symbols(data, upper) == Symbols(data[..n], upper) + {upper(data[n].symbol)};
      StrangerHasNoVersions(data[..n], upper, symbol);
    }
  }

  lemma VersionsAppend(data: seq<Asset>, asset: Asset, upper: string -> string, symbol: string)
    ensures VersionsOf(data + [asset], upper, symbol)
         == VersionsOf(data, upper, symbol) + if upper(asset.symbol) == symbol then [asset] else []
  {
    assert (data + [asset])[..|data|] == data;
    assert VersionsOf(data, upper, symbol) + [] == VersionsOf(data, upper, symbol);
  }

  lemma GroupOneMore(data: seq<Asset>, asset: Asset, upper: string -> string, order: seq<string>, groups: map<string,
                     seq<Asset>>)
    requires Grouped(data, upper, order, groups)
    ensures var symbol := upper(asset.symbol);
      if symbol in groups then Grouped(data + [asset], upper, order, groups[symbol := groups[symbol] + [asset]])
      else Grouped(data + [asset], upper, order + [symbol], groups[symbol := [asset]])
  {
    hide Grouped;
    if upper(asset.symbol) in groups { GroupKnown(data, asset, upper, order, groups); }
    else { GroupNew(data, asset, upper, order, groups); }
  }

  lemma SymbolsAppend(data: seq<Asset>, asset: Asset, upper: string -> string)
    ensures Symbols(data + [asset], upper) == Symbols(data, upper) + {upper(asset.symbol)}
  {
  }

  lemma GroupKnown(data: seq<Asset>, asset: Asset, upper: string -> string, order: seq<string>, groups: map<string,
                   seq<Asset>>)
    requires Grouped(data, upper, order, groups) && upper(asset.symbol) in groups
    ensures Grouped(data + [asset], upper, order, groups[upper(asset.symbol) := groups[upper(asset.symbol)] + [asset]])
  {
    hide VersionsOf, Symbols;
    SymbolsAppend(data, asset, upper);
    forall s | s in groups { VersionsAppend(data, asset, upper, s); }
  }

  lemma GroupNew(data: seq<Asset>, asset: Asset, upper: string -> string, order: seq<string>, groups: map<string,
                 seq<Asset>>)
    requires Grouped(data, upper, order, groups) && upper(asset.symbol) !in groups
    ensures Grouped(data + [asset], upper, order + [upper(asset.symbol)], groups[upper(asset.symbol) := [asset]])
  {
    hide VersionsOf, Symbols;
    var symbol := upper(asset.symbol);
    SymbolsAppend(data, asset, upper);
    StrangerHasNoVersions(data, upper, symbol);
    VersionsAppend(data, asset, upper, symbol);
    forall s | s in groups { VersionsAppend(data, asset, upper, s); }
    assert forall s :: s in order + [symbol] <==> s in order || s == symbol;
  }

  /** The first pass: versions by symbol, symbols in order of first appearance, and the
      native asset of each chain. */
  method GroupBySymbol(data: seq<Asset>, upper: string -> string)
    returns (order: seq<string>, groups: map<string, seq<Asset>>, chains: map<string, Asset>)
    ensures Grouped(data, upper, order, groups)
    ensures ChainsOf(data, chains)
  {
    order, groups, chains := [], map[], map[];
    for i := 0 to |data|
      invariant Grouped(data[..i], upper, order, groups)
      invariant ChainsOf(data[..i], chains)
    {
      hide Grouped, ChainsOf;
      var asset := data[i];
      var symbol := upper(asset.symbol);
      assert data[..i + 1] == data[..i] + [asset];
      GroupOneMore(data[..i], asset, upper, order, groups);
      ChainsOneMore(data[..i], asset, chains);
      if symbol !in groups {
        order := order + [symbol];
        groups := groups[symbol := [asset]];
      } else {
        groups := groups[symbol := groups[symbol] + [asset]];
      }
      if asset.assetId == asset.chainId {
        chains := chains[asset.assetId := asset];
      }
    }
    assert data[..|data|] == data;
  }

  lemma ChainsOneMore(data: seq<Asset>, asset: Asset, chains: map<string, Asset>)
    requires ChainsOf(data, chains)
    ensures ChainsOf(data + [asset], if IsNative(asset) then chains[asset.assetId := asset] else chains)
  {
    var (more, chains') := (data + [asset], if IsNative(asset) then chains[asset.assetId := asset] else chains);
    forall c | c in chains'
      ensures exists i | 0 <= i < |more| :: more[i] == chains'[c] && IsNativeOf(more[i], c) && NoneAfter(more, c, i)
    {
      if IsNativeOf(asset, c) {
        assert more[|data|] == chains'[c] && NoneAfter(more, c, |data|);
      } else {
        var i :| 0 <= i < |data| && data[i] == chains[c] && IsNativeOf(data[i], c) && NoneAfter(data, c, i);
        assert more[i] == chains'[c] && NoneAfter(more, c, i);
      }
    }
  }

  method FindNative(versions: seq<Asset>, chains: map<string, Asset>) returns (index: int)
    ensures -1 <= index < |versions|
    ensures index >= 0 ==> IsNative(versions[index]) && versions[index].chainId in chains
    ensures forall k | 0 <= k < (if index < 0 then |versions| else index) ::
      !(IsNative(versions[k]) && versions[k].chainId in chains)
  {
    for i := 0 to |versions|
      invariant forall k | 0 <= k < i :: !(IsNative(versions[k]) && versions[k].chainId in chains)
    {
      if versions[i].assetId == versions[i].chainId && versions[i].chainId in chains {
        return i;
      }
    }
    return -1;
  }

  method BestByPriority(versions: seq<Asset>, priority: seq<string>) returns (best: nat)
    requires versions != [] && forall v <- versions :: !IsNative(v)
    ensures IsSelected(versions, priority, best)
  {
    hide Rank;
    best := 0;
    var bestRank := |priority|;
    for i := 0 to |versions|
      invariant best < |versions| && (best == 0 || best < i) && bestRank <= |priority|
      invariant bestRank == |priority| ==> best == 0 && forall k | 0 <= k < i :: Rank(priority, versions[k].chainId) < 0
      invariant bestRank < |priority| ==> 0 <= bestRank == Rank(priority, versions[best].chainId)
      invariant forall k | 0 <= k < i :: var q := Rank(priority, versions[k].chainId); q < 0 || bestRank <= q
      invariant bestRank < |priority| ==> forall k | 0 <= k < best :: Rank(priority, versions[k].chainId) != bestRank
    {
      var rank := Rank(priority, versions[i].chainId);
      if rank != -1 && rank < bestRank {
        bestRank := rank;
        best := i;
      }
    }
    assert versions[best] in versions;
    forall v | v in versions && bestRank == |priority| ensures Rank(priority, v.chainId) < 0 {
      var k :| 0 <= k < |versions| && versions[k] == v;
    }
  }

  /** One turn of the second pass. The chains are those of the whole response, which is
      why its test on them never says no to a native version. */
  method PickVersion(versions: seq<Asset>, priority: seq<string>, chains: map<string, Asset>) returns (best: nat)
    requires versions != [] && forall v <- versions :: IsNative(v) ==> v.chainId in chains
    ensures IsSelected(versions, priority, best)
  {
    if |versions| == 1 {
      SingleVersionIsSelected(versions, priority);
      return 0;
    }
    var native := FindNative(versions, chains);
    if native >= 0 {
      assert versions[native] in versions;
      assert forall k | 0 <= k < |versions| :: versions[k] in versions;
      return native;
    }
    assert forall v <- versions :: exists k :: 0 <= k < |versions| && versions[k] == v;
    best := BestByPriority(versions, priority);
  }

  class AssetSource {
    const priority: seq<string>
    const upper: string -> string
    var assetsCache: Option<map<string, Asset>>
    var chainsCache: Option<map<string, Asset>>

    constructor (priority: seq<string>, upper: string -> string)
      ensures this.priority == priority && this.upper == upper && assetsCache == None && chainsCache == None
    {
      this.priority, this.upper, assetsCache, chainsCache := priority, upper, None, None;
    }

    /** fetchMixinAssets for the response `data`; a cached result is returned as it is. */
    method FetchMixinAssets(data: seq<Asset>) returns (assets: map<string, Asset>)
      modifies this
      ensures old(assetsCache).Some? ==> assets == old(assetsCache).value && unchanged(this)
      ensures old(assetsCache).None? ==>
        assetsCache == Some(assets) && MeetsSpecification(data, upper, priority, assets)
    {
      if assetsCache.Some? {
        return assetsCache.value;
      }
      var order, groups, chains := GroupBySymbol(data, upper);
      assets := SelectVersions(data, upper, priority, order, groups, chains);
      assetsCache, chainsCache := Some(assets), Some(chains);
    }
  }

  method SelectVersion(ghost data: seq<Asset>, ghost upper: string -> string, priority: seq<string>,
                       ghost symbol: string, versions: seq<Asset>, chains: map<string, Asset>)
    returns (selected: Asset)
    requires versions == VersionsOf(data, upper, symbol) && versions != [] && ChainsOf(data, chains)
    ensures SelectedFor(data, upper, priority, symbol, selected)
  {
    VersionsAreFromData(data, upper, symbol);
    var best := PickVersion(versions, priority, chains);
    selected := versions[best];
  }

  /** The second pass, over the groups of the first. */
  method SelectVersions(ghost data: seq<Asset>, ghost upper: string -> string, priority: seq<string>,
                        order: seq<string>, groups: map<string, seq<Asset>>, chains: map<string, Asset>)
    returns (assets: map<string, Asset>)
    requires Grouped(data, upper, order, groups) && ChainsOf(data, chains)
    ensures MeetsSpecification(data, upper, priority, assets)
  {
    hide IsSelected, VersionsOf, Symbols, SelectedFor, ChainsOf, IsNative, Rank;
    assets := map[];
    for i := 0 to |order|
      invariant forall s :: s in assets <==> s in order[..i]
      invariant forall s <- assets :: SelectedFor(data, upper, priority, s, assets[s])
    {
      var symbol := order[i];
      var selected := SelectVersion(data, upper, priority, symbol, groups[symbol], chains);
      assets := assets[symbol := selected];
      assert order[..i + 1] == order[..i] + [symbol];
    }
    assert order[..|order|] == order;
  }

  ghost predicate SelectedFor(data: seq<Asset>, upper: string -> string, priority: seq<string>, symbol: string,
                              a: Asset) {
    var versions := VersionsOf(data, upper, symbol);
    exists i: nat :: i < |versions| && IsSelected(versions, priority, i) && a == versions[i]
  }

  /** One entry for every upper-cased symbol, each the selected one of its versions. */
  ghost predicate MeetsSpecification(data: seq<Asset>, upper: string -> string, priority: seq<string>,
                                     assets: map<string, Asset>) {
    && assets.Keys == Symbols(data, upper)
    && forall s <- assets :: SelectedFor(data, upper, priority, s, assets[s])
  }

  lemma {:induction false} VersionsAreFromData(data: seq<Asset>, upper: string -> string, symbol: string)
    ensures forall v :: v in VersionsOf(data, upper, symbol) <==> v in data && upper(v.symbol) == symbol
  {
    if data != [] {
      assert data == data[..|data| - 1] + [data[|data| - 1]];
      VersionsAreFromData(data[..|data| - 1], upper, symbol);
    }
  }

  /** The specification leaves no choice: two results for one response are equal. */
  lemma SpecificationIsExact(data: seq<Asset>, upper: string -> string, priority: seq<string>,
                             a: map<string, Asset>, b: map<string, Asset>)
    requires MeetsSpecification(data, upper, priority, a) && MeetsSpecification(data, upper, priority, b)
    ensures a == b
  {
    hide IsSelected;
    forall s | s in a ensures s in b && a[s] == b[s] {
      var versions := VersionsOf(data, upper, s);
      assert s in a.Keys;
      var i: nat :| i < |versions| && IsSelected(versions, priority, i) && a[s] == versions[i];
      var j: nat :| j < |versions| && IsSelected(versions, priority, j) && b[s] == versions[j];
      SelectionIsUnique(versions, priority, i, j);
    }
    assert a.Keys == b.Keys;
  }

  /** The groups lose and repeat nothing: each item of the response is in exactly one. */
  lemma {:induction false} GroupsPartition(data: seq<Asset>, upper: string -> string, a: Asset, symbol: string)
    ensures multiset(VersionsOf(data, upper, symbol))[a] == if upper(a.symbol) == symbol then multiset(data)[a] else 0
  {
    if data != [] {
      var n := |data| - 1;
      GroupsPartition(data[..n], upper, a, symbol);
      assert data == data[..n] + [data[n]];
    }
  }
}
