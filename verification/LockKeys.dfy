/** The lock key `orderId:assetId` under which reservations are paused
    (server/src/modules/market-making/ledger/balance-ledger.service.ts), and when two
    balances share one. */
module LockKeys {
  import opened BalanceLedger
  import opened Decimal
  import opened Text

  /** `a` is something, a colon, and `b`. */
  predicate ColonSuffix(a: string, b: string) { EndsWith(a, ":" + b) }

  /** What stands before that colon. */
  function BeforeSuffix(a: string, b: string): string
    requires ColonSuffix(a, b)
  {
    a[..|a| - |b| - 1]
  }

  /** The second balance's order id has taken over the front of the first one's asset id. */
  predicate Shifted(orderId: string, assetId: string, orderId': string, assetId': string) {
    ColonSuffix(assetId, assetId') && orderId' == orderId + ":" + BeforeSuffix(assetId, assetId')
  }

  lemma SuffixSplits(a: string, b: string)
    requires ColonSuffix(a, b)
    ensures a == BeforeSuffix(a, b) + ":" + b
  {
    assert a == a[..|a| - |b| - 1] + a[|a| - |b| - 1..];
  }

  lemma ShiftedShareKey(orderId: string, assetId: string, orderId': string, assetId': string)
    requires Shifted(orderId, assetId, orderId', assetId')
    ensures LockKey(orderId, assetId) == LockKey(orderId', assetId')
  {
    SuffixSplits(assetId, assetId');
    var front := BeforeSuffix(assetId, assetId');
    assert orderId + ":" + (front + ":" + assetId') == (orderId + ":" + front) + ":" + assetId';
  }

  lemma ShorterOrderIsShifted(orderId: string, assetId: string, orderId': string, assetId': string)
    requires LockKey(orderId, assetId) == LockKey(orderId', assetId') && |orderId| < |orderId'|
    ensures Shifted(orderId, assetId, orderId', assetId')
  {
    var key, n, n' := LockKey(orderId, assetId), |orderId|, |orderId'|;
    var front := key[n + 1..n'];
    assert key[..n] == orderId && key[n] == ':' && key[..n'] == orderId' && key[n'] == ':';
    assert key[..n'] == key[..n] + [key[n]] + front;
    assert assetId == key[n + 1..] == front + key[n'..];
    assert key[n'..] == ":" + assetId';
    assert assetId[|assetId| - |assetId'| - 1..] == ":" + assetId';
  }

  /** Two balances share a lock key exactly when they are the same or one is the other
      with the front of its asset id moved to the order id. */
  lemma LockKeysEqualExactly(orderId: string, assetId: string, orderId': string, assetId': string)
    ensures LockKey(orderId, assetId) == LockKey(orderId', assetId') <==>
      (|| (orderId == orderId' && assetId == assetId')
       || Shifted(orderId, assetId, orderId', assetId') || Shifted(orderId', assetId', orderId, assetId))
  {
    hide Shifted, LockKey;
    if Shifted(orderId, assetId, orderId', assetId') { ShiftedShareKey(orderId, assetId, orderId', assetId'); }
    if Shifted(orderId', assetId', orderId, assetId) { ShiftedShareKey(orderId', assetId', orderId, assetId); }
    if LockKey(orderId, assetId) == LockKey(orderId', assetId') {
      if |orderId| < |orderId'| { ShorterOrderIsShifted(orderId, assetId, orderId', assetId'); }
      else if |orderId'| < |orderId| { ShorterOrderIsShifted(orderId', assetId', orderId, assetId); }
      else { SameLengthIsSame(orderId, assetId, orderId', assetId'); }
    }
  }

  lemma SameLengthIsSame(orderId: string, assetId: string, orderId': string, assetId': string)
    requires LockKey(orderId, assetId) == LockKey(orderId', assetId') && |orderId| == |orderId'|
    ensures orderId == orderId' && assetId == assetId'
  {
    var key, n := LockKey(orderId, assetId), |orderId|;
    assert key[..n] == orderId == orderId' && key[n + 1..] == assetId == assetId';
  }

  /** Whether any balances of two assets can share a key is a matter of the asset ids
      alone: exactly when one is a colon-suffix of the other. */
  lemma AssetsShareAKeyExactly(assetId: string, assetId': string)
    ensures (exists orderId, orderId' | (orderId, assetId) != (orderId', assetId') ::
        LockKey(orderId, assetId) == LockKey(orderId', assetId'))
      <==> ColonSuffix(assetId, assetId') || ColonSuffix(assetId', assetId)
  {
    hide LockKey, ColonSuffix;
    if ColonSuffix(assetId, assetId') {
      TwinHasSameKey("", assetId, assetId');
    } else if ColonSuffix(assetId', assetId) {
      TwinHasSameKey("", assetId', assetId);
    } else {
      forall orderId, orderId' | LockKey(orderId, assetId) == LockKey(orderId', assetId')
        ensures (orderId, assetId) == (orderId', assetId')
      {
        LockKeysEqualExactly(orderId, assetId, orderId', assetId');
      }
    }
  }

  /** The order whose balance in the shorter asset has the same key. */
  function TwinOrder(orderId: string, assetId: string, suffix: string): string
    requires ColonSuffix(assetId, suffix)
  {
    orderId + ":" + BeforeSuffix(assetId, suffix)
  }

  lemma TwinHasSameKey(orderId: string, assetId: string, suffix: string)
    requires ColonSuffix(assetId, suffix)
    ensures LockKey(orderId, assetId) == LockKey(TwinOrder(orderId, assetId, suffix), suffix)
    ensures TwinOrder(orderId, assetId, suffix) != orderId
  {
    ShiftedShareKey(orderId, assetId, TwinOrder(orderId, assetId, suffix), suffix);
    assert |TwinOrder(orderId, assetId, suffix)| > |orderId|;
  }

  lemma SuffixKeyCollides()
    ensures LockKey("o1", "x:a") == LockKey("o1:x", "a")
  {
    assert "o1" + ":" + "x:a" == "o1:x" + ":" + "a";
  }

  // ---- asset ids of tokens on EVM chains ----

  function EvmAsset(chainId: nat, address: string): string { "evm:" + (Digits(chainId) + (":" + address)) }

  lemma EvmColons(chainId: nat, address: string)
    requires ':' !in address
    ensures var (id, n) := (EvmAsset(chainId, address), |Digits(chainId)|);
      && |id| == 5 + n + |address| && id[3] == ':' && id[4 + n] == ':'
      && forall k | 0 <= k < |id| && id[k] == ':' :: k == 3 || k == 4 + n
  {
    var (id, digits) := (EvmAsset(chainId, address), Digits(chainId));
    var n := |digits|;
    assert |"evm:"| == 4 && "evm:"[0] == 'e' && "evm:"[1] == 'v' && "evm:"[2] == 'm' && "evm:"[3] == ':';
    assert id[..4] == "evm:" && id[4..4 + n] == digits && id[5 + n..] == address;
    forall k | 0 <= k < |id| && k != 3 && k != 4 + n ensures id[k] != ':' {
      if k < 4 { assert id[k] == id[..4][k]; }
      else if k < 4 + n { assert id[k] == digits[k - 4] && IsDigit(digits[k - 4]); }
      else { assert id[k] == address[k - 5 - n]; }
    }
  }

  lemma SuffixChars(a: string, b: string, k: nat)
    requires ColonSuffix(a, b) && k < |b|
    ensures |a| > |b| && a[|a| - |b| - 1] == ':' && a[|a| - |b| + k] == b[k]
  {
    var tail := a[|a| - |b| - 1..];
    assert tail[0] == ':' && tail[k + 1] == b[k];
  }

  /** The ids of two tokens are never colon-suffixes of each other, so their balances
      never share a key. */
  lemma EvmAssetsStandApart(chainId: nat, address: string, chainId': nat, address': string)
    requires ':' !in address && ':' !in address'
    ensures !ColonSuffix(EvmAsset(chainId, address), EvmAsset(chainId', address'))
  {
    hide EvmAsset, ColonSuffix, Digits;
    var (a, b) := (EvmAsset(chainId, address), EvmAsset(chainId', address'));
    EvmColons(chainId, address);
    EvmColons(chainId', address');
    if ColonSuffix(a, b) {
      SuffixChars(a, b, 3);
      SuffixChars(a, b, 4 + |Digits(chainId')|);
    }
  }

  lemma ColonSuffixHasColon(a: string, b: string)
    requires ColonSuffix(a, b)
    ensures ':' in a
  {
    SuffixSplits(a, b);
    assert (BeforeSuffix(a, b) + ":" + b)[|BeforeSuffix(a, b)|] == ':';
  }

  /** An id without a colon is a colon-suffix of a token's only if it is its address. */
  lemma EvmAssetEndsInItsAddress(chainId: nat, address: string, plain: string)
    requires ':' !in address && ':' !in plain
    ensures !ColonSuffix(plain, EvmAsset(chainId, address))
    ensures ColonSuffix(EvmAsset(chainId, address), plain) <==> plain == address
  {
    hide EvmAsset;
    var (a, n) := (EvmAsset(chainId, address), |Digits(chainId)|);
    EvmColons(chainId, address);
    EvmTail(chainId, address);
    if ColonSuffix(plain, a) { ColonSuffixHasColon(plain, a); }
    if ColonSuffix(a, plain) { OneColonTail(a, plain, 4 + n); }
  }

  lemma OneColonTail(a: string, plain: string, last: nat)
    requires ColonSuffix(a, plain) && ':' !in plain && last < |a| && a[last] == ':' && ':' !in a[last + 1..]
    ensures plain == a[last + 1..]
  {
    var d := |a| - |plain| - 1;
    SuffixSplits(a, plain);
    assert a[d] == ':' && a[d + 1..] == plain;
    assert d == last;
  }

  lemma EvmTail(chainId: nat, address: string)
    ensures var (a, n) := (EvmAsset(chainId, address), |Digits(chainId)|); |a| >= 5 + n && a[4 + n..] == ":" + address
  {
    var n := |Digits(chainId)|;
    assert EvmAsset(chainId, address)[4..] == Digits(chainId) + (":" + address);
  }

  /** The first token of the shipped table. */
  const USDC_ADDRESS := "0xa0b86991c6218b36c1d19d4a2e9eb0ce3606eb48"

  lemma ShippedTokenIsEvmAsset()
    ensures ':' !in USDC_ADDRESS && EvmAsset(1, USDC_ADDRESS) == "evm:1:" + USDC_ADDRESS
  {
    NoColonInUsdc();
    assert Digits(1) == "1";
    assert "evm:" + "1" + ":" == "evm:1:";
    assert "evm:" + ("1" + (":" + USDC_ADDRESS)) == "evm:" + "1" + ":" + USDC_ADDRESS;
  }

  lemma NoColonInUsdc()
    ensures ':' !in USDC_ADDRESS
  {
  }
}
