/** server/src/common/helpers/subscriptionKey.ts: one text key per market-data
    subscription. */
module SubscriptionKey {
  import opened Outcomes
  import opened Text

  datatype MarketDataType = Orderbook | Ticker | OHLCV | Tickers

  datatype CompositeKey = CompositeKey(
    kind: string, exchange: Option<string>, symbol: Option<string>,
    symbols: Option<seq<string>>, timeFrame: Option<string>)

  function TypeName(kind: MarketDataType): string {
    match kind
    case Orderbook => "orderbook"
    case Ticker => "ticker"
    case OHLCV => "OHLCV"
    case Tickers => "tickers"
  }

  // ---- the canonical list of symbols ----

  function Insert(sorted: seq<string>, s: string): seq<string> {
    if sorted == [] || Less(s, sorted[0]) then [s] + sorted
    else if sorted[0] == s then sorted
    else [sorted[0]] + Insert(sorted[1..], s)
  }

  /** `[...new Set(symbols.map(trim).filter(Boolean))].sort()`: the trimmed,
      non-empty symbols once each, in order. */
  function NormalizeSymbols(symbols: seq<string>): seq<string> {
    if symbols == [] then [] else
      var rest := NormalizeSymbols(symbols[..|symbols| - 1]);
      var symbol := Trim(symbols[|symbols| - 1]);
      if symbol == "" then rest else Insert(rest, symbol)
  }

  ghost predicate Ascending(xs: seq<string>) { forall i, j | 0 <= i < j < |xs| :: Less(xs[i], xs[j]) }

  function SymbolSet(symbols: seq<string>): set<string> {
    set s | s in symbols && Trim(s) != "" :: Trim(s)
  }

  lemma {:induction false} InsertKeepsOrder(sorted: seq<string>, s: string)
    requires Ascending(sorted)
    ensures Ascending(Insert(sorted, s))
    ensures forall x :: x in Insert(sorted, s) <==> x in sorted || x == s
  {
    if sorted == [] || Less(s, sorted[0]) {
      forall i | 0 <= i < |sorted| ensures Less(s, sorted[i]) {
        if i > 0 { LessTransitive(s, sorted[0], sorted[i]); }
      }
    } else if sorted[0] != s {
      LessTotal(s, sorted[0]);
      InsertKeepsOrder(sorted[1..], s);
      var rest := Insert(sorted[1..], s);
      forall i | 0 <= i < |rest| ensures Less(sorted[0], rest[i]) {
        assert rest[i] in rest;
        if rest[i] != s {
          var j :| 0 <= j < |sorted[1..]| && sorted[1..][j] == rest[i];
          assert Less(sorted[0], sorted[j + 1]);
        }
      }
      assert sorted == [sorted[0]] + sorted[1..];
    }
  }

  /** What the key keeps of a symbol list: its set, listed once in order. */
  lemma {:induction false} NormalizedList(symbols: seq<string>)
    ensures Ascending(NormalizeSymbols(symbols))
    ensures forall x :: x in NormalizeSymbols(symbols) <==> x in SymbolSet(symbols)
    ensures forall x <- NormalizeSymbols(symbols) :: x != "" && Trimmed(x)
  {
    if symbols != [] {
      var init, last := symbols[..|symbols| - 1], symbols[|symbols| - 1];
      assert symbols == init + [last];
      NormalizedList(init);
      assert SymbolSet(symbols) == SymbolSet(init) + if Trim(last) == "" then {} else {Trim(last)};
      if Trim(last) != "" { InsertKeepsOrder(NormalizeSymbols(init), Trim(last)); }
    }
  }

  lemma HeadIsLeast(a: seq<string>)
    requires Ascending(a) && a != []
    ensures a[0] !in a[1..] && forall x <- a[1..] :: Less(a[0], x)
    ensures forall x :: x in a <==> x == a[0] || x in a[1..]
  {
    hide Less;
    LessTotal(a[0], a[0]);
    assert forall i | 0 <= i < |a[1..]| :: a[1..][i] == a[i + 1];
    assert a == [a[0]] + a[1..];
  }

  lemma {:induction false} AscendingListIsUnique(a: seq<string>, b: seq<string>)
    requires Ascending(a) && Ascending(b) && forall x :: x in a <==> x in b
    ensures a == b
  {
    hide Less;
    assert a != [] ==> a[0] in a;
    assert b != [] ==> b[0] in b;
    if a != [] && b != [] {
      HeadIsLeast(a);
      HeadIsLeast(b);
      LessTotal(a[0], b[0]);
      AscendingListIsUnique(a[1..], b[1..]);
      assert a == [a[0]] + a[1..] && b == [b[0]] + b[1..];
    }
  }

  lemma NormalizedListsEqual(a: seq<string>, b: seq<string>)
    ensures NormalizeSymbols(a) == NormalizeSymbols(b) <==> SymbolSet(a) == SymbolSet(b)
  {
    NormalizedList(a);
    NormalizedList(b);
    if SymbolSet(a) == SymbolSet(b) { AscendingListIsUnique(NormalizeSymbols(a), NormalizeSymbols(b)); }
  }

  // ---- keys ----

  /** Template text of an optional argument. */
  function Shown(s: Option<string>): string { if s.Some? then s.value else "undefined" }

  function CreateCompositeKey(kind: MarketDataType, exchange: string, symbol: Option<string>,
                              symbols: Option<seq<string>>, timeFrame: Option<string>): string {
    match kind
    case Orderbook | Ticker => TypeName(kind) + ":" + exchange + ":" + Shown(symbol)
    case OHLCV => TypeName(kind) + ":" + exchange + ":" + Shown(symbol) + ":" + Shown(timeFrame)
    case Tickers =>
      TypeName(kind) + ":" + exchange + ":"
      + Join(if symbols.Some? then NormalizeSymbols(symbols.value) else [], ',')
  }

  function Part(parts: seq<string>, i: nat): Option<string> {
    if i < |parts| then Some(parts[i]) else None
  }

  function NonEmptyParts(parts: seq<string>): seq<string> {
    if parts == [] then [] else (if parts[0] == "" then [] else [parts[0]]) + NonEmptyParts(parts[1..])
  }

  function DecodeCompositeKey(compositeKey: string): CompositeKey {
    var parts := Split(compositeKey, ':');
    var base := CompositeKey(parts[0], Part(parts, 1), None, None, None);
    if parts[0] == "orderbook" || parts[0] == "ticker" then base.(symbol := Part(parts, 2))
    else if parts[0] == "OHLCV" then base.(symbol := Part(parts, 2), timeFrame := Part(parts, 3))
    else if parts[0] == "tickers" then
      base.(symbols := Some(if |parts| > 2 && parts[2] != "" then NonEmptyParts(Split(parts[2], ',')) else []))
    else base
  }

  lemma TypeNameHasNoColon(kind: MarketDataType)
    ensures ':' !in TypeName(kind)
  {
  }

  lemma TypeNamesDiffer(k1: MarketDataType, k2: MarketDataType)
    requires TypeName(k1) == TypeName(k2)
    ensures k1 == k2
  {
    assert TypeName(k1)[0] == TypeName(k2)[0] && |TypeName(k1)| == |TypeName(k2)|;
  }

  /** Keys of different types are never equal, whatever their other parts hold. */
  lemma TypesNeverCollide(k1: MarketDataType, e1: string, s1: Option<string>, l1: Option<seq<string>>,
                          t1: Option<string>,
                          k2: MarketDataType, e2: string, s2: Option<string>, l2: Option<seq<string>>,
                          t2: Option<string>)
    requires CreateCompositeKey(k1, e1, s1, l1, t1) == CreateCompositeKey(k2, e2, s2, l2, t2)
    ensures k1 == k2
  {
    var key1, key2 := CreateCompositeKey(k1, e1, s1, l1, t1), CreateCompositeKey(k2, e2, s2, l2, t2);
    FirstPart(k1, e1, s1, l1, t1);
    FirstPart(k2, e2, s2, l2, t2);
    TypeNamesDiffer(k1, k2);
  }

  /** The part of a key after `type:`. */
  function Tail(kind: MarketDataType, exchange: string, symbol: Option<string>,
                symbols: Option<seq<string>>, timeFrame: Option<string>): string {
    match kind
    case Orderbook | Ticker => exchange + ":" + Shown(symbol)
    case OHLCV => exchange + ":" + (Shown(symbol) + ":" + Shown(timeFrame))
    case Tickers => exchange + ":" + Join(if symbols.Some? then NormalizeSymbols(symbols.value) else [], ',')
  }

  lemma FirstPart(kind: MarketDataType, exchange: string, symbol: Option<string>,
                  symbols: Option<seq<string>>, timeFrame: Option<string>)
    ensures var parts := Split(CreateCompositeKey(kind, exchange, symbol, symbols, timeFrame), ':');
      && parts[0] == TypeName(kind)
      && parts == [TypeName(kind)] + Split(Tail(kind, exchange, symbol, symbols, timeFrame), ':')
  {
    var tail := Tail(kind, exchange, symbol, symbols, timeFrame);
    TypeNameHasNoColon(kind);
    assert CreateCompositeKey(kind, exchange, symbol, symbols, timeFrame) == TypeName(kind) + ":" + tail;
    SplitHead(TypeName(kind), ':', tail);
  }

  /** Splitting `a:b` gives back `a` first exactly when `a` has no colon. */
  lemma SplitPair(a: string, b: string)
    ensures var parts := Split(a + ":" + b, ':');
      |parts| >= 2 && (parts[0] == a <==> ':' !in a) && (':' !in a ==> parts == [a] + Split(b, ':'))
  {
    var s := a + ":" + b;
    assert s[|a|] == ':';
    if ':' !in a { SplitHead(a, ':', b); } else { assert ':' !in Split(s, ':')[0]; }
  }

  lemma SplitLast(b: string)
    ensures Split(b, ':')[0] == b <==> ':' !in b
  {
  }

  /** Order-book and ticker keys decode to what they were made from exactly when
      neither part holds a colon. */
  lemma SymbolKeyRoundTrip(kind: MarketDataType, exchange: string, symbol: string)
    requires kind.Orderbook? || kind.Ticker?
    ensures DecodeCompositeKey(CreateCompositeKey(kind, exchange, Some(symbol), None, None))
         == CompositeKey(TypeName(kind), Some(exchange), Some(symbol), None, None)
      <==> ':' !in exchange && ':' !in symbol
  {
    FirstPart(kind, exchange, Some(symbol), None, None);
    SplitPair(exchange, symbol);
    SplitLast(symbol);
  }

  lemma CandleKeyRoundTrip(exchange: string, symbol: string, timeFrame: string)
    ensures DecodeCompositeKey(CreateCompositeKey(OHLCV, exchange, Some(symbol), None, Some(timeFrame)))
         == CompositeKey("OHLCV", Some(exchange), Some(symbol), None, Some(timeFrame))
      <==> ':' !in exchange && ':' !in symbol && ':' !in timeFrame
  {
    hide Split, CreateCompositeKey;
    FirstPart(OHLCV, exchange, Some(symbol), None, Some(timeFrame));
    SplitPair(exchange, symbol + ":" + timeFrame);
    SplitPair(symbol, timeFrame);
    SplitLast(timeFrame);
  }

  // ---- keys over a list of symbols ----

  lemma {:induction false} NonEmptyPartsKeeps(parts: seq<string>)
    requires forall p <- parts :: p != ""
    ensures NonEmptyParts(parts) == parts
  {
    if parts != [] {
      assert parts[0] in parts;
      assert forall p <- parts[1..] :: p in parts;
      assert parts == [parts[0]] + parts[1..];
      NonEmptyPartsKeeps(parts[1..]);
    }
  }

  lemma {:induction false} JoinFree(parts: seq<string>, sep: char, c: char)
    requires c != sep
    ensures c !in Join(parts, sep) <==> Free(parts, c)
  {
    if |parts| == 1 {
      assert parts == [parts[0]];
    } else if parts != [] {
      JoinFree(parts[1..], sep, c);
      assert parts == [parts[0]] + parts[1..];
      assert c in Join(parts, sep) <==> c in parts[0] || c in Join(parts[1..], sep);
      assert Free(parts, c) <==> c !in parts[0] && Free(parts[1..], c);
    }
  }

  lemma {:induction false} JoinNonEmpty(parts: seq<string>, sep: char)
    requires parts != [] && forall p <- parts :: p != ""
    ensures Join(parts, sep) != ""
  {
    assert parts[0] in parts;
  }

  /** Reading a joined list back gives it exactly when no symbol holds a comma. */
  lemma JoinedListRoundTrip(list: seq<string>)
    requires forall p <- list :: p != ""
    ensures (if Join(list, ',') != "" then NonEmptyParts(Split(Join(list, ','), ',')) else []) == list <==>
      Free(list, ',')
  {
    if list != [] {
      JoinNonEmpty(list, ',');
      var parts := Split(Join(list, ','), ',');
      JoinSplit(Join(list, ','), ',');
      NonEmptyPartsAreParts(parts);
      if Free(list, ',') {
        SplitJoin(list, ',');
        NonEmptyPartsKeeps(list);
      }
    }
  }

  lemma {:induction false} NonEmptyPartsAreParts(parts: seq<string>)
    ensures forall p <- NonEmptyParts(parts) :: p in parts
  {
    if parts != [] { NonEmptyPartsAreParts(parts[1..]); }
  }

  lemma {:induction false} NonEmptyPartsShorter(parts: seq<string>)
    requires parts != []
    ensures |Join(NonEmptyParts(parts), ',')| <= |Join(parts, ',')|
  {
    if |parts| > 1 {
      NonEmptyPartsShorter(parts[1..]);
      if parts[0] != "" {
        assert NonEmptyParts(parts) == [parts[0]] + NonEmptyParts(parts[1..]);
        assert NonEmptyParts(parts)[1..] == NonEmptyParts(parts[1..]);
      } else {
        assert NonEmptyParts(parts) == NonEmptyParts(parts[1..]);
      }
    } else {
      assert NonEmptyParts(parts[1..]) == [];
    }
  }

  /** A symbol-list key decodes to the sorted, duplicate-free list of its symbols
      exactly when the exchange has no colon and no symbol a comma or a colon. */
  lemma TickersKeyRoundTrip(exchange: string, symbols: seq<string>)
    ensures DecodeCompositeKey(CreateCompositeKey(Tickers, exchange, None, Some(symbols), None))
         == CompositeKey("tickers", Some(exchange), None, Some(NormalizeSymbols(symbols)), None)
      <==> ':' !in exchange && Free(NormalizeSymbols(symbols), ',') && Free(NormalizeSymbols(symbols), ':')
  {
    hide NormalizeSymbols, SymbolSet, Ascending, CreateCompositeKey, DecodeCompositeKey;
    var list := NormalizeSymbols(symbols);
    var text := Join(list, ',');
    NormalizedList(symbols);
    FirstPart(Tickers, exchange, None, Some(symbols), None);
    DecodeTickers(CreateCompositeKey(Tickers, exchange, None, Some(symbols), None), exchange + ":" + text);
    SplitPair(exchange, text);
    if ':' !in exchange { ListPartRoundTrip(list); }
  }

  lemma DecodeTickers(key: string, tail: string)
    requires Split(key, ':') == ["tickers"] + Split(tail, ':') && |Split(tail, ':')| >= 2
    ensures var list := Split(tail, ':')[1];
      DecodeCompositeKey(key) == CompositeKey("tickers", Some(Split(tail, ':')[0]), None,
        Some(if list != "" then NonEmptyParts(Split(list, ',')) else []), None)
  {
    hide Split, NonEmptyParts;
    assert "tickers"[5] == 'r' && |"tickers"| == 7;
  }

  lemma ListPartRoundTrip(list: seq<string>)
    requires forall p <- list :: p != ""
    ensures var seen := Split(Join(list, ','), ':')[0];
      (if seen != "" then NonEmptyParts(Split(seen, ',')) else []) == list <==> Free(list, ',') && Free(list, ':')
  {
    var text := Join(list, ',');
    JoinFree(list, ',', ':');
    JoinedListRoundTrip(list);
    var seen := Split(text, ':')[0];
    if ':' in text {
      JoinSplit(seen, ',');
      NonEmptyPartsShorter(Split(seen, ','));
      assert |seen| < |text|;
    }
  }

  /** Two symbol-list keys are equal exactly for equal exchanges and equal sets of
      symbols, in any order and with any repetitions. */
  lemma TickersKeysEqual(e1: string, l1: seq<string>, e2: string, l2: seq<string>)
    requires ':' !in e1 && ':' !in e2 && Free(NormalizeSymbols(l1), ',') && Free(NormalizeSymbols(l2), ',')
    ensures CreateCompositeKey(Tickers, e1, None, Some(l1), None)
         == CreateCompositeKey(Tickers, e2, None, Some(l2), None)
      <==> e1 == e2 && SymbolSet(l1) == SymbolSet(l2)
  {
    var n1, n2 := NormalizeSymbols(l1), NormalizeSymbols(l2);
    NormalizedListsEqual(l1, l2);
    var k1 := CreateCompositeKey(Tickers, e1, None, Some(l1), None);
    var k2 := CreateCompositeKey(Tickers, e2, None, Some(l2), None);
    if k1 == k2 {
      TickersKeyParts(e1, l1);
      TickersKeyParts(e2, l2);
      JoinsEqual(n1, n2);
    }
  }

  lemma TickersKeyParts(exchange: string, symbols: seq<string>)
    requires ':' !in exchange
    ensures var parts := Split(CreateCompositeKey(Tickers, exchange, None, Some(symbols), None), ':');
      |parts| >= 3 && parts[1] == exchange && Join(parts[2..], ':') == Join(NormalizeSymbols(symbols), ',')
    ensures forall p <- NormalizeSymbols(symbols) :: p != ""
  {
    var text := Join(NormalizeSymbols(symbols), ',');
    FirstPart(Tickers, exchange, None, Some(symbols), None);
    ThreeParts("tickers", exchange, text);
    NormalizedList(symbols);
  }

  lemma ThreeParts(name: string, exchange: string, text: string)
    requires ':' !in exchange
    ensures var parts := [name] + Split(exchange + ":" + text, ':');
      |parts| >= 3 && parts[1] == exchange && Join(parts[2..], ':') == text
  {
    hide Split, Join;
    SplitPair(exchange, text);
    JoinSplit(text, ':');
    var parts := [name] + Split(exchange + ":" + text, ':');
    assert parts == [name, exchange] + Split(text, ':');
    assert parts[2..] == Split(text, ':');
  }

  lemma JoinsEqual(a: seq<string>, b: seq<string>)
    requires Free(a, ',') && Free(b, ',') && Join(a, ',') == Join(b, ',')
    requires (forall p <- a :: p != "") && forall p <- b :: p != ""
    ensures a == b
  {
    JoinedListRoundTrip(a);
    JoinedListRoundTrip(b);
  }

  /** Equal sets always give equal keys, whatever characters they hold. */
  lemma SameSetsSameKey(exchange: string, l1: seq<string>, l2: seq<string>)
    requires SymbolSet(l1) == SymbolSet(l2)
    ensures CreateCompositeKey(Tickers, exchange, None, Some(l1), None)
         == CreateCompositeKey(Tickers, exchange, None, Some(l2), None)
  {
    hide NormalizeSymbols, Join;
    NormalizedListsEqual(l1, l2);
  }

  lemma KeyOfOneSymbol(exchange: string, symbol: string)
    requires Trimmed(symbol) && symbol != ""
    ensures CreateCompositeKey(Tickers, exchange, None, Some([symbol]), None) == "tickers:" + exchange + ":" + symbol
    ensures SymbolSet([symbol]) == {symbol}
  {
    assert [symbol][..0] == [];
    assert Trim(symbol) == symbol;
    assert NormalizeSymbols([symbol]) == [symbol];
    assert Join([symbol], ',') == symbol;
    assert symbol in [symbol];
    assert TypeName(Tickers) + ":" == "tickers:";
    assert SymbolSet([symbol]) == {symbol};
  }

  /** The other direction needs the separators to stay out: a colon moves freely between
      exchange and symbol. */
  lemma ColonsCollide(e: string, x: string, y: string)
    requires Trimmed(y) && y != "" && Trimmed(x + ":" + y) && x + ":" + y != ""
    ensures CreateCompositeKey(Tickers, e, None, Some([x + ":" + y]), None)
         == CreateCompositeKey(Tickers, e + ":" + x, None, Some([y]), None)
    ensures e != e + ":" + x
  {
    hide Trimmed, CreateCompositeKey, SymbolSet;
    KeyOfOneSymbol(e, x + ":" + y);
    KeyOfOneSymbol(e + ":" + x, y);
    assert "tickers:" + e + ":" + (x + ":" + y) == "tickers:" + (e + ":" + x) + ":" + y;
    assert |e| < |e + ":" + x|;
  }

  /** One symbol with a comma is taken for two. */
  lemma CommasCollide(exchange: string, x: string, y: string)
    requires Trimmed(x) && Trimmed(y) && x != "" && y != "" && Less(x, y)
    ensures CreateCompositeKey(Tickers, exchange, None, Some([x + "," + y]), None)
         == CreateCompositeKey(Tickers, exchange, None, Some([x, y]), None)
    ensures SymbolSet([x + "," + y]) != SymbolSet([x, y])
  {
    hide Less, Trimmed;
    var both := x + "," + y;
    assert Trimmed(both) by { EndsAreTrimmed(x, y); }
    KeyOfOneSymbol(exchange, both);
    PairNormalized(x, y);
    assert TypeName(Tickers) + ":" == "tickers:";
    assert Join([x, y], ',') == both by { assert [x, y][1..] == [y]; }
    PairSet(x, y);
    assert |both| > |x| && |both| > |y|;
  }

  lemma EndsAreTrimmed(x: string, y: string)
    requires Trimmed(x) && Trimmed(y) && x != "" && y != ""
    ensures Trimmed(x + "," + y)
  {
    var both := x + "," + y;
    assert both[0] == x[0] && both[|both| - 1] == y[|y| - 1];
  }

  lemma PairSet(x: string, y: string)
    requires Trimmed(x) && Trimmed(y) && x != "" && y != ""
    ensures SymbolSet([x, y]) == {x, y}
  {
    assert Trim(x) == x && Trim(y) == y;
    assert x in [x, y] && y in [x, y];
  }

  lemma PairNormalized(x: string, y: string)
    requires Trimmed(x) && Trimmed(y) && x != "" && y != "" && Less(x, y)
    ensures NormalizeSymbols([x, y]) == [x, y]
  {
    NormalizedList([x, y]);
    PairSet(x, y);
    LessTotal(x, y);
    assert Ascending([x, y]);
    AscendingListIsUnique(NormalizeSymbols([x, y]), [x, y]);
  }

  /** Exchange libraries write a swap's symbol with a colon: such keys do not decode. */
  lemma SwapSymbolsDoNotDecode(exchange: string)
    ensures DecodeCompositeKey(CreateCompositeKey(Ticker, exchange, Some("BTC/USDT:USDT"), None, None))
         != CompositeKey("ticker", Some(exchange), Some("BTC/USDT:USDT"), None, None)
  {
    assert "BTC/USDT:USDT"[8] == ':';
    SymbolKeyRoundTrip(Ticker, exchange, "BTC/USDT:USDT");
  }

  /** The text of each kind of key. */
  lemma KeyTexts(exchange: string, symbol: string, timeFrame: string, symbols: seq<string>)
    ensures CreateCompositeKey(Orderbook, exchange, Some(symbol), None, None) == "orderbook:" + exchange + ":" + symbol
    ensures CreateCompositeKey(Ticker, exchange, Some(symbol), None, None) == "ticker:" + exchange + ":" + symbol
    ensures CreateCompositeKey(OHLCV, exchange, Some(symbol), None, Some(timeFrame))
         == "OHLCV:" + exchange + ":" + symbol + ":" + timeFrame
    ensures CreateCompositeKey(Tickers, exchange, None, Some(symbols), None)
         == "tickers:" + exchange + ":" + Join(NormalizeSymbols(symbols), ',')
    ensures CreateCompositeKey(Tickers, exchange, None, None, None) == "tickers:" + exchange + ":"
    ensures CreateCompositeKey(Ticker, exchange, None, None, None) == "ticker:" + exchange + ":undefined"
  {
    hide NormalizeSymbols;
    assert "orderbook" + ":" == "orderbook:" && "ticker" + ":" == "ticker:" && "OHLCV" + ":" == "OHLCV:";
    assert "tickers" + ":" == "tickers:";
    assert ("ticker:" + exchange + ":") + "undefined" == "ticker:" + exchange + ":undefined";
  }
}
