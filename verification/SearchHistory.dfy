/** interface/src/lib/helpers/searchHistory.ts: the last few searched items. */
module SearchHistory {
  import opened Outcomes

  datatype Item = Item(symbol: string, payload: string)

  const CAPACITY: nat := 6

  function SymbolsOf(items: seq<Item>): (r: seq<string>)
    ensures |r| == |items|
  {
    seq(|items|, i requires 0 <= i < |items| => items[i].symbol)
  }

  ghost predicate Distinct<T>(xs: seq<T>) { forall i, j | 0 <= i < j < |xs| :: xs[i] != xs[j] }

  function TakeLast<T>(xs: seq<T>, n: nat): seq<T> { if |xs| <= n then xs else xs[|xs| - n..] }

  function Without<T(==)>(xs: seq<T>, x: T): seq<T> {
    if xs == [] then [] else (if xs[0] == x then [] else [xs[0]]) + Without(xs[1..], x)
  }

  function MoveToEnd<T(==)>(xs: seq<T>, x: T): seq<T> { Without(xs, x) + [x] }

  /** The symbols that occur, once each, in the order of their last occurrences. */
  function ByLastOccurrence<T(==)>(xs: seq<T>): seq<T> {
    if xs == [] then [] else (if xs[0] in xs[1..] then [] else [xs[0]]) + ByLastOccurrence(xs[1..])
  }

  class HistoryStore {
    /** The parsed `search-history` entry of local storage. */
    var stored: Option<seq<Item>>

    ghost function Items(): seq<Item>
      reads this
    {
      if stored.Some? then stored.value else []
    }

    ghost function Symbols(): seq<string>
      reads this
    {
      SymbolsOf(Items())
    }

    constructor ()
      ensures Items() == []
    {
      stored := None;
    }

    method GetSearchHistory() returns (history: seq<Item>)
      ensures history == Items()
    {
      if stored.None? {
        return [];
      }
      return stored.value;
    }

    method FindSymbol(history: seq<Item>, symbol: string) returns (index: int)
      ensures -1 <= index < |history|
      ensures index >= 0 ==> history[index].symbol == symbol
      ensures forall k | 0 <= k < (if index < 0 then |history| else index) :: history[k].symbol != symbol
    {
      for i := 0 to |history|
        invariant forall k | 0 <= k < i :: history[k].symbol != symbol
      {
        if history[i].symbol == symbol {
          return i;
        }
      }
      return -1;
    }

    /** Moves a known symbol's stored item to the end, or appends a new item, and
        drops the oldest of seven. A known symbol keeps the item it was stored with. */
    method AddSearchHistory(item: Option<Item>)
      requires Distinct(Symbols()) && |Items()| <= 6
      modifies this
      ensures item.None? ==> stored == old(stored)
      ensures item.Some? ==> Symbols() == TakeLast(MoveToEnd(old(Symbols()), item.value.symbol), 6)
      ensures item.Some? ==> forall x <- Items() :: x in old(Items()) || x == item.value
      ensures item.Some? && item.value.symbol in old(Symbols()) ==> multiset(Items()) == multiset(old(Items()))
      ensures Distinct(Symbols()) && |Items()| <= 6
    {
      if item.None? {
        return;
      }
      var history := GetSearchHistory();
      MoveKeepsDistinct(SymbolsOf(history), item.value.symbol);
      history := MoveOrAppend(history, item.value);
      ghost var moved := SymbolsOf(history);
      if |history| > CAPACITY {
        history := history[1..];
        assert SymbolsOf(history) == moved[1..] == TakeLast(moved, CAPACITY);
      }
      stored := Some(history);
    }

    method MoveOrAppend(history: seq<Item>, item: Item) returns (next: seq<Item>)
      requires Distinct(SymbolsOf(history))
      ensures SymbolsOf(next) == MoveToEnd(SymbolsOf(history), item.symbol)
      ensures if item.symbol in SymbolsOf(history) then multiset(next) == multiset(history)
              else next == history + [item]
      ensures |next| <= |history| + 1 && forall x <- next :: x in history || x == item
    {
      hide Without, Distinct, TakeLast;
      ghost var before := SymbolsOf(history);
      var index := FindSymbol(history, item.symbol);
      if index == -1 {
        WithoutStranger(before, item.symbol);
        next := history + [item];
      } else {
        var existing := history[index];
        WithoutAt(before, index);
        assert before[index] == item.symbol;
        assert history == history[..index] + [existing] + history[index + 1..];
        next := history[..index] + history[index + 1..] + [existing];
        assert forall x <- next :: x in history;
        assert SymbolsOf(next) == before[..index] + before[index + 1..] + [item.symbol];
      }
    }
  }

  lemma {:induction false} WithoutStranger<T>(xs: seq<T>, x: T)
    requires x !in xs
    ensures Without(xs, x) == xs
  {
    if xs != [] {
      assert xs == [xs[0]] + xs[1..];
      assert x !in xs[1..];
      WithoutStranger(xs[1..], x);
    }
  }

  lemma {:induction false} WithoutAppend<T>(xs: seq<T>, ys: seq<T>, x: T)
    ensures Without(xs + ys, x) == Without(xs, x) + Without(ys, x)
  {
    if xs == [] {
      assert xs + ys == ys;
    } else {
      assert (xs + ys)[1..] == xs[1..] + ys;
      WithoutAppend(xs[1..], ys, x);
    }
  }

  lemma {:induction false} WithoutAt<T>(xs: seq<T>, i: nat)
    requires i < |xs| && Distinct(xs)
    ensures Without(xs, xs[i]) == xs[..i] + xs[i + 1..]
  {
    DistinctHead(xs);
    if i == 0 {
      WithoutStranger(xs[1..], xs[0]);
      assert xs[..0] + xs[1..] == xs[1..];
    } else {
      WithoutAt(xs[1..], i - 1);
      assert xs[..i] + xs[i + 1..] == [xs[0]] + (xs[1..][..i - 1] + xs[1..][i..]);
    }
  }

  lemma DistinctHead<T>(xs: seq<T>)
    requires xs != []
    ensures Distinct(xs) <==> xs[0] !in xs[1..] && Distinct(xs[1..])
  {
    assert xs == [xs[0]] + xs[1..];
    assert forall i | 0 <= i < |xs| - 1 :: xs[1..][i] == xs[i + 1];
  }

  lemma {:induction false} WithoutMembers<T>(xs: seq<T>, x: T)
    ensures forall y :: y in Without(xs, x) <==> y in xs && y != x
    ensures Distinct(xs) ==> Distinct(Without(xs, x))
  {
    if xs != [] {
      var rest := Without(xs[1..], x);
      WithoutMembers(xs[1..], x);
      assert xs == [xs[0]] + xs[1..];
      DistinctHead(xs);
      DistinctHead([xs[0]] + rest);
      assert ([xs[0]] + rest)[1..] == rest;
    }
  }

  lemma MoveKeepsDistinct<T>(xs: seq<T>, x: T)
    requires Distinct(xs)
    ensures Distinct(MoveToEnd(xs, x))
  {
    var rest := Without(xs, x);
    WithoutMembers(xs, x);
    assert forall i | 0 <= i < |rest| :: rest[i] in rest;
  }

  // ---- all sequences of additions ----

  /** The stored symbols after a sequence of additions, for any capacity. */
  function Run<T(==)>(xs: seq<T>, capacity: nat): seq<T> {
    if xs == [] then [] else TakeLast(MoveToEnd(Run(xs[..|xs| - 1], capacity), xs[|xs| - 1]), capacity)
  }

  lemma {:induction false} WithoutShorter<T>(xs: seq<T>, x: T)
    requires Distinct(xs)
    ensures |Without(xs, x)| == |xs| - if x in xs then 1 else 0
  {
    if x in xs {
      var i :| 0 <= i < |xs| && xs[i] == x;
      WithoutAt(xs, i);
    } else {
      WithoutStranger(xs, x);
    }
  }

  /** Truncating before a move makes no difference to truncating after it. */
  lemma TruncationCommutes<T>(xs: seq<T>, x: T, n: nat)
    requires Distinct(xs) && n > 0
    ensures TakeLast(MoveToEnd(TakeLast(xs, n), x), n) == TakeLast(MoveToEnd(xs, x), n)
  {
    if |xs| > n {
      var cut, kept := xs[..|xs| - n], xs[|xs| - n..];
      assert xs == cut + kept;
      WithoutAppend(cut, kept, x);
      assert Distinct(kept);
      WithoutShorter(kept, x);
      var rest := MoveToEnd(kept, x);
      assert MoveToEnd(xs, x) == Without(cut, x) + rest;
      if |rest| < n { assert false; }
      assert TakeLast(Without(cut, x) + rest, n) == TakeLast(rest, n);
    }
  }

  lemma {:induction false} ByLastOccurrenceAppend<T>(xs: seq<T>, x: T)
    ensures ByLastOccurrence(xs + [x]) == MoveToEnd(ByLastOccurrence(xs), x)
  {
    if xs == [] {
      assert [] + [x] == [x];
    } else {
      var head, tail := xs[0], xs[1..];
      assert (xs + [x])[1..] == tail + [x];
      ByLastOccurrenceAppend(tail, x);
      WithoutAppend(if head in tail then [] else [head], ByLastOccurrence(tail), x);
      assert Without([head], x) == if head == x then [] else [head];
      assert head in tail + [x] <==> head in tail || head == x;
      if head in tail { assert Without([], x) == []; }
    }
  }

  lemma {:induction false} ByLastOccurrenceFacts<T>(xs: seq<T>)
    ensures Distinct(ByLastOccurrence(xs))
    ensures forall y :: y in ByLastOccurrence(xs) <==> y in xs
  {
    if xs != [] {
      ByLastOccurrenceFacts(xs[1..]);
      assert xs == [xs[0]] + xs[1..];
    }
  }

  /** For every sequence of additions and every capacity, the stored symbols are the
      last distinct symbols in the order of their last occurrences. */
  lemma {:induction false} HistoryIsLastDistinct<T>(xs: seq<T>, capacity: nat)
    requires capacity > 0
    ensures Run(xs, capacity) == TakeLast(ByLastOccurrence(xs), capacity)
  {
    if xs != [] {
      var init, x := xs[..|xs| - 1], xs[|xs| - 1];
      HistoryIsLastDistinct(init, capacity);
      ByLastOccurrenceFacts(init);
      TruncationCommutes(ByLastOccurrence(init), x, capacity);
      ByLastOccurrenceAppend(init, x);
      assert xs == init + [x];
    }
  }

  /** A smaller list is always the end of a larger one fed with the same additions. */
  lemma SmallerListIsIncluded<T>(xs: seq<T>, small: nat, large: nat)
    requires 0 < small <= large
    ensures Run(xs, small) == TakeLast(Run(xs, large), small)
  {
    HistoryIsLastDistinct(xs, small);
    HistoryIsLastDistinct(xs, large);
  }

  /** A client adding items one by one ends with exactly the last six distinct symbols. */
  method AddAll(items: seq<Item>) returns (store: HistoryStore)
    ensures store.Symbols() == TakeLast(ByLastOccurrence(SymbolsOf(items)), 6)
  {
    store := new HistoryStore();
    assert SymbolsOf(items[..0]) == [];
    for i := 0 to |items|
      invariant fresh(store)
      invariant store.Symbols() == Run(SymbolsOf(items[..i]), CAPACITY)
      invariant Distinct(store.Symbols()) && |store.Items()| <= CAPACITY
    {
      store.AddSearchHistory(Some(items[i]));
      assert SymbolsOf(items[..i + 1])[..i] == SymbolsOf(items[..i]);
    }
    assert items[..|items|] == items;
    HistoryIsLastDistinct(SymbolsOf(items), CAPACITY);
  }
}
