/** What a rebuild sees, for every run, every two times at which it reads entries and
    balance, and every order in which the entries come; and when it reports a match. */
module LedgerRebuild {
  import opened BalanceLedger
  import opened LedgerBooks
  import opened LedgerFees
  import opened LedgerRuns
  import opened Outcomes
  import opened Text

  // ---- sums that do not depend on the order ----

  lemma PlusSwaps(a: Sums, u: Sums, v: Sums)
    ensures a.Plus(u).Plus(v) == a.Plus(v).Plus(u)
  {
  }

  lemma {:induction false} SumWithout(xs: seq<Entry>, i: nat, pool: seq<Entry>)
    requires i < |xs|
    ensures Sum(xs, pool) == Sum(xs[..i] + xs[i + 1..], pool).Plus(Weight(xs[i], pool))
  {
    hide Weight;
    var n := |xs| - 1;
    var rest := xs[..i] + xs[i + 1..];
    if i == n {
      assert rest == xs[..n];
    } else {
      SumWithout(xs[..n], i, pool);
      assert rest[..n - 1] == xs[..n][..i] + xs[..n][i + 1..];
      PlusSwaps(Sum(rest[..n - 1], pool), Weight(xs[i], pool), Weight(xs[n], pool));
    }
  }

  lemma {:induction false} SumOfPermutation(xs: seq<Entry>, ys: seq<Entry>, pool: seq<Entry>)
    requires multiset(xs) == multiset(ys)
    ensures Sum(xs, pool) == Sum(ys, pool)
  {
    if xs == [] {
      assert |multiset(ys)| == 0;
    } else {
      var n := |xs| - 1;
      assert xs[n] in multiset(ys);
      var i :| 0 <= i < |ys| && ys[i] == xs[n];
      var rest := ys[..i] + ys[i + 1..];
      assert xs == xs[..n] + [xs[n]];
      assert ys == ys[..i] + [ys[i]] + ys[i + 1..];
      assert multiset(ys) == multiset(ys[..i]) + multiset{ys[i]} + multiset(ys[i + 1..]);
      assert multiset(xs) == multiset(xs[..n]) + multiset{xs[n]};
      assert multiset(rest) == multiset(ys[..i]) + multiset(ys[i + 1..]);
      assert multiset(rest) == multiset(ys) - multiset{ys[i]};
      assert multiset(xs[..n]) == multiset(xs) - multiset{xs[n]};
      SumOfPermutation(xs[..n], rest, pool);
      SumWithout(ys, i, pool);
    }
  }

  // ---- what a rebuild sees of the entries that reversals refer to ----

  /** `id` names an entry of another order or asset. */
  predicate Foreign(s: State, orderId: string, assetId: string, id: string) {
    exists x <- s.entries :: x.entryId == id && !(x.scope.ledgerOrderId == orderId && x.assetId == assetId)
  }

  lemma SortedMembers(s: State, orderId: string, assetId: string, sorted: seq<Entry>)
    requires IsSortOf(sorted, InScope(s.entries, orderId, assetId))
    ensures forall x :: x in sorted <==> x in s.entries && x.scope.ledgerOrderId == orderId && x.assetId == assetId
  {
    hide Chosen, Chronological;
    var rows := InScope(s.entries, orderId, assetId);
    ChosenMembers(s.entries, Stored, orderId, assetId);
    assert forall x :: x in sorted <==> x in multiset(sorted);
    assert forall x :: x in multiset(rows) <==> x in rows;
  }

  /** A rebuild of one scope looks a reversed entry up among that scope's entries only. */
  lemma LookupInScope(s: State, orderId: string, assetId: string, sorted: seq<Entry>, id: string)
    requires EntriesOk(s.entries) && IsSortOf(sorted, InScope(s.entries, orderId, assetId))
    ensures KindOf(sorted, id) == if Foreign(s, orderId, assetId, id) then None else KindOf(s.entries, id)
  {
    hide InScope, IsSortOf, EntriesOk;
    SortedMembers(s, orderId, assetId, sorted);
    if x :| x in s.entries && x.entryId == id {
      OneWithId(s.entries, x);
      if Foreign(s, orderId, assetId, id) {
        KindOfStranger(sorted, id);
      } else {
        KindOfMember(s.entries, x);
        KindOfMember(sorted, x);
      }
    } else {
      KindOfStranger(s.entries, id);
      KindOfStranger(sorted, id);
    }
  }

  /** What reversals of other scopes' entries have added to the realized delta. */
  function ForeignRealized(s: State, orderId: string, assetId: string, xs: seq<Entry>): real {
    if xs == [] then 0.0 else
      var e := xs[|xs| - 1];
      ForeignRealized(s, orderId, assetId, xs[..|xs| - 1])
      + if e.kind.Reversal? && Foreign(s, orderId, assetId, e.reversalOf) &&
        ReversalRealizes(KindOf(s.entries, e.reversalOf))
        then e.amount else 0.0
  }

  lemma {:induction false} SumSeenByRebuild(s: State, orderId: string, assetId: string, sorted: seq<Entry>,
                                            xs: seq<Entry>)
    requires EntriesOk(s.entries) && IsSortOf(sorted, InScope(s.entries, orderId, assetId))
    ensures Sum(xs, s.entries) == Sum(xs, sorted).Plus(Sums(NO_FUNDS, 0.0, ForeignRealized(s, orderId, assetId, xs)))
  {
    hide InScope, KindOf, EntriesOk, IsSortOf, Foreign, Effect;
    if xs != [] {
      SumSeenByRebuild(s, orderId, assetId, sorted, xs[..|xs| - 1]);
      LookupInScope(s, orderId, assetId, sorted, xs[|xs| - 1].reversalOf);
    }
  }

  lemma RebuildSums(s: State, orderId: string, assetId: string, sorted: seq<Entry>)
    requires EntriesOk(s.entries) && IsSortOf(sorted, InScope(s.entries, orderId, assetId))
    ensures var xs := InScope(s.entries, orderId, assetId);
      Sum(xs, s.entries)
      == SumsOf(Replay(sorted, sorted)).Plus(Sums(NO_FUNDS, 0.0, ForeignRealized(s, orderId, assetId, xs)))
  {
    hide EntriesOk, InScope, Sum, Chronological, ForeignRealized;
    var xs := InScope(s.entries, orderId, assetId);
    SumSeenByRebuild(s, orderId, assetId, sorted, xs);
    SumOfPermutation(xs, sorted, sorted);
    ReplayIsSum(sorted, sorted);
  }

  // ---- two reads at two times ----

  /** What the ledger gained for this balance from one state to another. */
  function Moved(from: World, to: World, orderId: string, assetId: string): Sums {
    Ledger(to, orderId, assetId).Minus(Ledger(from, orderId, assetId))
  }

  /** What a rebuild cannot see: reversals in this scope of entries of another one. */
  function Unseen(w: World, orderId: string, assetId: string): Sums {
    Sums(NO_FUNDS, 0.0, ForeignRealized(w.db, orderId, assetId, InScope(w.db.entries, orderId, assetId)))
  }

  predicate SortedAt(events: seq<Event>, n: nat, orderId: string, assetId: string, sorted: seq<Entry>)
    requires n <= |events|
  {
    IsSortOf(sorted, InScope(At(events, n).db.entries, orderId, assetId))
  }

  /** What is missing from the balance read at `rowAt`, by all causes. */
  function MissingAt(events: seq<Event>, rowAt: nat, orderId: string, assetId: string): Sums
    requires rowAt <= |events|
  {
    var w := At(events, rowAt);
    StraysIn(w, orderId, assetId).Plus(Unsaved(w, orderId, assetId)).Plus(Lost(events, rowAt, orderId, assetId))
  }

  /** What the ledger gained between the two reads and what a rebuild cannot see hide
      just as much. */
  function HiddenFrom(events: seq<Event>, entriesAt: nat, rowAt: nat, orderId: string, assetId: string): Sums
    requires entriesAt <= |events| && rowAt <= |events|
  {
    var (from, to) := (At(events, entriesAt), At(events, rowAt));
    Moved(from, to, orderId, assetId).Plus(Unseen(from, orderId, assetId))
  }

  predicate SumsMatch(actual: Balance, expected: Books) {
    && actual.books.funds.available == expected.funds.available
    && actual.books.funds.locked == expected.funds.locked
    && actual.total == expected.funds.Total()
    && actual.books.initialDeposit == expected.initialDeposit
    && actual.books.realizedDelta == expected.realizedDelta
  }

  /** The two reads of a rebuild, in either order and with anything in between: the row
      read plus all that is missing from it is what the entries read come to plus what is
      hidden. So the compared sums match exactly when what is missing is what is hidden. */
  lemma RebuildSees(events: seq<Event>, entriesAt: nat, rowAt: nat, orderId: string, assetId: string,
                    sorted: seq<Entry>)
    requires Legal(events) && entriesAt <= |events| && rowAt <= |events|
    requires SortedAt(events, entriesAt, orderId, assetId, sorted)
    ensures var (row, expected) := (Row(At(events, rowAt), orderId, assetId), Replay(sorted, sorted));
      var (missing, hidden) := (MissingAt(events, rowAt, orderId, assetId),
        HiddenFrom(events, entriesAt, rowAt, orderId, assetId));
      && SumsOf(row.books).Plus(missing) == SumsOf(expected).Plus(hidden)
      && (SumsMatch(row, expected) <==> missing == hidden)
  {
    hide Legal, Run, At, EntriesOk, Valid, InScope, IsSortOf, Sum, Replay, BalanceOf, StraysIn, Unsaved, Lost,
      ForeignRealized;
    var (a, b) := (At(events, entriesAt), At(events, rowAt));
    InvAt(events, entriesAt);
    InvMeans(a);
    InvAt(events, rowAt);
    InvMeans(b);
    RebuildSums(a.db, orderId, assetId, sorted);
    GapIsAccounted(events, rowAt, orderId, assetId);
    BalanceIsValid(b.db, orderId, assetId);
    SumsMatchExactly(Row(b, orderId, assetId), Replay(sorted, sorted),
      MissingAt(events, rowAt, orderId, assetId), HiddenFrom(events, entriesAt, rowAt, orderId, assetId));
  }

  lemma SumsMatchExactly(row: Balance, expected: Books, missing: Sums, hidden: Sums)
    requires ValidBalance(row) && SumsOf(row.books).Plus(missing) == SumsOf(expected).Plus(hidden)
    ensures SumsMatch(row, expected) <==> missing == hidden
  {
  }

  /** A rebuild that reports a match has found what is missing and what is hidden equal. */
  lemma MatchMeansHidden(events: seq<Event>, entriesAt: nat, rowAt: nat, orderId: string, assetId: string,
                         sorted: seq<Entry>)
    requires Legal(events) && entriesAt <= |events| && rowAt <= |events|
    requires SortedAt(events, entriesAt, orderId, assetId, sorted)
    requires RebuildMatches(Row(At(events, rowAt), orderId, assetId), sorted)
    ensures MissingAt(events, rowAt, orderId, assetId) == HiddenFrom(events, entriesAt, rowAt, orderId, assetId)
  {
    hide Legal, Run, At, Row, SortedAt, Replay, MissingAt, HiddenFrom;
    RebuildSees(events, entriesAt, rowAt, orderId, assetId, sorted);
  }

  /** The ledger gains exactly the entries of this order and asset saved in between. */
  lemma MovedIsSaved(events: seq<Event>, m: nat, n: nat, orderId: string, assetId: string)
    requires Legal(events) && m <= n <= |events|
    ensures var (xs, ys) := (At(events, m).db.entries, At(events, n).db.entries);
      |xs| <= |ys| &&
        Moved(At(events, m), At(events, n), orderId, assetId) == Sum(InScope(ys[|xs|..], orderId, assetId), ys)
  {
    hide Legal, Run, At, Sum, EntriesOk, Chosen;
    EntriesOnlyGrow(events, m, n);
    var (xs, ys) := (At(events, m).db.entries, At(events, n).db.entries);
    LedgerIsStable(events, m, n, orderId, assetId);
    assert ys == xs + ys[|xs|..];
    ChosenJoined(xs, ys[|xs|..], orderId, assetId);
    SumJoined(InScope(xs, orderId, assetId), InScope(ys[|xs|..], orderId, assetId), ys);
    MinusPlus(Sum(InScope(xs, orderId, assetId), ys), Sum(InScope(ys[|xs|..], orderId, assetId), ys));
  }

  lemma MinusPlus(a: Sums, b: Sums)
    ensures a.Plus(b).Minus(a) == b
  {
  }

  lemma {:induction false} ChosenJoined(xs: seq<Entry>, ys: seq<Entry>, orderId: string, assetId: string)
    ensures InScope(xs + ys, orderId, assetId) == InScope(xs, orderId, assetId) + InScope(ys, orderId, assetId)
  {
    hide IsFor;
    if ys == [] {
      assert xs + ys == xs;
    } else {
      var init := ys[..|ys| - 1];
      assert (xs + ys)[..|xs + ys| - 1] == xs + init;
      ChosenJoined(xs, init, orderId, assetId);
    }
  }

  lemma {:induction false} SumJoined(xs: seq<Entry>, ys: seq<Entry>, pool: seq<Entry>)
    ensures Sum(xs + ys, pool) == Sum(xs, pool).Plus(Sum(ys, pool))
  {
    hide Weight;
    if ys == [] {
      assert xs + ys == xs;
    } else {
      var init := ys[..|ys| - 1];
      assert (xs + ys)[..|xs + ys| - 1] == xs + init;
      SumJoined(xs, init, pool);
    }
  }

  /** Entries that come later do not change what earlier ones add up to. */
  lemma LedgerIsStable(events: seq<Event>, m: nat, n: nat, orderId: string, assetId: string)
    requires Legal(events) && m <= n <= |events|
    ensures var xs := InScope(At(events, m).db.entries, orderId, assetId);
      Sum(xs, At(events, n).db.entries) == Sum(xs, At(events, m).db.entries)
  {
    hide Legal, At, Sum, Replay, InScope;
    var xs := InScope(At(events, m).db.entries, orderId, assetId);
    ReplayIsStable(events, m, n, orderId, assetId);
    ReplayIsSum(xs, At(events, m).db.entries);
    ReplayIsSum(xs, At(events, n).db.entries);
  }

  // ---- rebuilds that nothing disturbs ----

  /** No entry of this balance was saved between the two reads, and no mutation was in
      flight on it when the row was read. */
  predicate Undisturbed(events: seq<Event>, entriesAt: nat, rowAt: nat, orderId: string, assetId: string)
    requires entriesAt <= |events| && rowAt <= |events|
  {
    && InScope(At(events, entriesAt).db.entries, orderId, assetId) == InScope(At(events, rowAt).db.entries, orderId,
      assetId)
    && (orderId, assetId) !in At(events, rowAt).inFlight
  }

  /** Nothing was lost on this balance up to here and no stray entry concerns it. */
  predicate Sound(events: seq<Event>, n: nat, orderId: string, assetId: string)
    requires n <= |events|
  {
    Lossless(events, n, orderId, assetId) && NoStrays(At(events, n).db.entries, orderId, assetId)
  }

  lemma UndisturbedMovesNothing(events: seq<Event>, entriesAt: nat, rowAt: nat, orderId: string, assetId: string)
    requires Legal(events) && entriesAt <= |events| && rowAt <= |events|
    requires Undisturbed(events, entriesAt, rowAt, orderId, assetId)
    ensures Moved(At(events, entriesAt), At(events, rowAt), orderId, assetId) == NOTHING
    ensures Unsaved(At(events, rowAt), orderId, assetId) == NOTHING
  {
    hide Legal, Run, At, Sum, InScope, Row;
    if entriesAt <= rowAt { LedgerIsStable(events, entriesAt, rowAt, orderId, assetId); }
    else { LedgerIsStable(events, rowAt, entriesAt, orderId, assetId); }
  }

  /** An undisturbed rebuild of a sound balance, whatever order the rows come in: it
      agrees on funds, total and initial deposit, and its realized delta is short by
      exactly the reversals of other scopes' entries. */
  lemma RebuildAgreesOnSums(events: seq<Event>, entriesAt: nat, rowAt: nat, orderId: string, assetId: string,
                            sorted: seq<Entry>)
    requires Legal(events) && entriesAt <= |events| && rowAt <= |events|
    requires SortedAt(events, entriesAt, orderId, assetId, sorted)
    requires Undisturbed(events, entriesAt, rowAt, orderId, assetId) && Sound(events, rowAt, orderId, assetId)
    ensures var (row, expected) := (Row(At(events, rowAt), orderId, assetId), Replay(sorted, sorted));
      && SumsOf(row.books) == SumsOf(expected).Plus(Unseen(At(events, entriesAt), orderId, assetId))
      && (SumsMatch(row, expected) <==> Unseen(At(events, entriesAt), orderId, assetId) == NOTHING)
  {
    hide Legal, Run, At, SortedAt, Undisturbed, Lossless, NoStrays, Moved, Unseen, Unsaved, Row, Replay, Lost, Strays;
    UndisturbedMovesNothing(events, entriesAt, rowAt, orderId, assetId);
    RebuildSees(events, entriesAt, rowAt, orderId, assetId, sorted);
    LosslessLosesNothing(events, rowAt, orderId, assetId);
    var xs := At(events, rowAt).db.entries;
    NoStraysAddNothing(xs, xs, orderId, assetId);
  }

  // ---- the fields that depend on the order ----

  lemma LastOfSort(sorted: seq<Entry>, rows: seq<Entry>)
    requires IsSortOf(sorted, rows) && StrictlyChronological(rows) && rows != []
    ensures |sorted| == |rows| && sorted[|rows| - 1] == rows[|rows| - 1]
  {
    var n := |rows| - 1;
    assert |multiset(sorted)| == |multiset(rows)|;
    assert rows[n] in multiset(sorted) && sorted[n] in multiset(rows);
    var i :| 0 <= i <= n && sorted[i] == rows[n];
    var j :| 0 <= j <= n && rows[j] == sorted[n];
    assert sorted[i].createdAt <= sorted[n].createdAt;
    assert j == n;
  }

  lemma MultisetOfInit(xs: seq<Entry>)
    requires xs != []
    ensures multiset(xs[..|xs| - 1]) == multiset(xs) - multiset{xs[|xs| - 1]}
  {
    assert xs == xs[..|xs| - 1] + [xs[|xs| - 1]];
  }

  lemma SortOfInit(sorted: seq<Entry>, rows: seq<Entry>)
    requires IsSortOf(sorted, rows) && StrictlyChronological(rows) && rows != []
    ensures |sorted| == |rows| && sorted[|rows| - 1] == rows[|rows| - 1]
    ensures IsSortOf(sorted[..|rows| - 1], rows[..|rows| - 1]) && StrictlyChronological(rows[..|rows| - 1])
  {
    LastOfSort(sorted, rows);
    MultisetOfInit(sorted);
    MultisetOfInit(rows);
  }

  lemma {:induction false} SortIsUnique(sorted: seq<Entry>, rows: seq<Entry>)
    requires IsSortOf(sorted, rows) && StrictlyChronological(rows)
    ensures sorted == rows
    decreases |rows|
  {
    if rows == [] {
      assert |multiset(sorted)| == 0;
    } else {
      var n := |rows| - 1;
      SortOfInit(sorted, rows);
      SortIsUnique(sorted[..n], rows[..n]);
      assert rows == rows[..n] + [rows[n]] && sorted == sorted[..n] + [sorted[n]];
    }
  }

  lemma FeesSeenByRebuild(s: State, orderId: string, assetId: string, xs: seq<Entry>)
    requires EntriesOk(s.entries) && xs == InScope(s.entries, orderId, assetId) && IsSortOf(xs, xs)
    ensures Replay(xs, xs).feePaid == Replay(xs, s.entries).feePaid <==> MissesAreCleared(xs, s.entries, xs)
  {
    hide Replay, InScope, IsSortOf, Foreign, KindOf, MissesAreCleared;
    ReplayFees(xs, xs);
    ReplayFees(xs, s.entries);
    ChosenMembers(s.entries, Stored, orderId, assetId);
    assert InScope(s.entries, orderId, assetId) == Chosen(s.entries, Stored, orderId, assetId) by {
      InScopeIs(s.entries, orderId, assetId);
    }
    forall e | e in xs ensures e.amount != 0.0 && (Refunds(e, xs) ==> Refunds(e, s.entries)) {
      LookupInScope(s, orderId, assetId, xs, e.reversalOf);
      assert EntryOk(e);
    }
    FeesWithMisses(xs, s.entries, xs);
  }

  lemma InScopeIs(xs: seq<Entry>, orderId: string, assetId: string)
    ensures InScope(xs, orderId, assetId) == Chosen(xs, Stored, orderId, assetId)
  {
  }

  /** When an undisturbed rebuild of a sound balance matches, for every order in which its
      sort may leave entries of one time: exactly when the first entry in that order and
      the last one saved name the same user (the row keeps the last and the rebuild takes
      the first), reversals of other scopes' entries have added nothing to the realized
      delta, and the fees in that order, without refunds of other scopes' fees, are those
      in the order of saving with them. */
  lemma RebuildMatchesExactly(events: seq<Event>, entriesAt: nat, rowAt: nat, orderId: string, assetId: string,
                              sorted: seq<Entry>)
    requires Legal(events) && entriesAt <= |events| && rowAt <= |events|
    requires SortedAt(events, entriesAt, orderId, assetId, sorted)
    requires Undisturbed(events, entriesAt, rowAt, orderId, assetId) && Sound(events, rowAt, orderId, assetId)
    ensures var w := At(events, entriesAt);
      var xs := InScope(w.db.entries, orderId, assetId);
      RebuildMatches(Row(At(events, rowAt), orderId, assetId), sorted) <==>
      (&& FirstUser(sorted) == LastUser(xs) && ForeignRealized(w.db, orderId, assetId, xs) == 0.0
       && Fees(0.0, sorted, sorted) == Fees(0.0, xs, w.db.entries))
  {
    hide Legal, Run, At, SortedAt, Row, Replay, Fees, ForeignRealized, InScope, Lossless, NoStrays, FirstUser, LastUser;
    var (a, b) := (At(events, entriesAt), At(events, rowAt));
    var xs := InScope(a.db.entries, orderId, assetId);
    RebuildAgreesOnSums(events, entriesAt, rowAt, orderId, assetId, sorted);
    RunKeepsBooks(events, rowAt, orderId, assetId);
    StoredReplay(events, entriesAt, rowAt, orderId, assetId);
    ReplayFees(sorted, sorted);
    ReplayFees(xs, a.db.entries);
    MatchesSplit(Row(b, orderId, assetId), FirstUser(sorted), Replay(sorted, sorted));
  }

  /** With distinct times there is one order, and fees agree exactly when each refund of
      another scope's fee that found fees to take is followed by one of its own that
      clears them. */
  lemma RebuildMatchesAtDistinctTimes(events: seq<Event>, entriesAt: nat, rowAt: nat, orderId: string, assetId: string,
                                      sorted: seq<Entry>)
    requires Legal(events) && entriesAt <= |events| && rowAt <= |events|
    requires SortedAt(events, entriesAt, orderId, assetId, sorted)
    requires Undisturbed(events, entriesAt, rowAt, orderId, assetId) && Sound(events, rowAt, orderId, assetId)
    requires StrictlyChronological(InScope(At(events, entriesAt).db.entries, orderId, assetId))
    ensures var w := At(events, entriesAt);
      var xs := InScope(w.db.entries, orderId, assetId);
      RebuildMatches(Row(At(events, rowAt), orderId, assetId), sorted) <==>
      (&& FirstUser(xs) == LastUser(xs) && ForeignRealized(w.db, orderId, assetId, xs) == 0.0
       && MissesAreCleared(xs, w.db.entries, xs))
  {
    hide Legal, Run, At, SortedAt, Row, Replay, Fees, MissesAreCleared, EntriesOk, ForeignRealized, InScope,
      StrictlyChronological, Undisturbed, Sound, FirstUser, LastUser, RebuildMatches;
    var a := At(events, entriesAt);
    var xs := InScope(a.db.entries, orderId, assetId);
    assert IsSortOf(sorted, xs) by { SortedIs(events, entriesAt, orderId, assetId, sorted); }
    SortIsUnique(sorted, xs);
    InvAt(events, entriesAt);
    InvMeans(a);
    FeesSeenByRebuild(a.db, orderId, assetId, xs);
    ReplayFees(xs, xs);
    ReplayFees(xs, a.db.entries);
    RebuildMatchesExactly(events, entriesAt, rowAt, orderId, assetId, sorted);
  }

  // ---- every order of tied rows ----

  predicate Earliest(e: Entry, xs: seq<Entry>) { e in xs && forall x <- xs :: e.createdAt <= x.createdAt }

  lemma SortsLookAlike(s: State, orderId: string, assetId: string, y: seq<Entry>, z: seq<Entry>)
    requires EntriesOk(s.entries)
    requires IsSortOf(y, InScope(s.entries, orderId, assetId)) && IsSortOf(z, InScope(s.entries, orderId, assetId))
    ensures SameKinds(y, z, y) && multiset(y) == multiset(z) && forall e :: e in y <==> e in z
  {
    hide EntriesOk, InScope, KindOf, Foreign, Chronological;
    assert forall e :: e in y <==> e in multiset(y);
    assert forall e :: e in z <==> e in multiset(z);
    forall e | e in y ensures KindOf(y, e.reversalOf) == KindOf(z, e.reversalOf) {
      LookupInScope(s, orderId, assetId, y, e.reversalOf);
      LookupInScope(s, orderId, assetId, z, e.reversalOf);
    }
  }

  /** The fees of any sort lie between those of the two extreme ones. */
  lemma SortsLieBetween(s: State, orderId: string, assetId: string, low: seq<Entry>, high: seq<Entry>, y: seq<Entry>)
    requires EntriesOk(s.entries) && ChargesFirst(low, low) && RefundsFirst(high, high)
    requires IsSortOf(low, InScope(s.entries, orderId, assetId)) && IsSortOf(high, InScope(s.entries, orderId, assetId))
    requires IsSortOf(y, InScope(s.entries, orderId, assetId))
    ensures Fees(0.0, low, low) <= Fees(0.0, y, y) <= Fees(0.0, high, high)
  {
    hide EntriesOk, InScope, Fees, SameKinds, ChargesFirst, RefundsFirst, Chronological;
    SortsLookAlike(s, orderId, assetId, y, low);
    SortsLookAlike(s, orderId, assetId, high, low);
    SortsLookAlike(s, orderId, assetId, y, high);
    FeesBySameKinds(0.0, y, y, low);
    FeesBySameKinds(0.0, y, y, high);
    ChargesFirstIsLeast(low, y, low);
    RefundsFirstIsMost(high, y, high);
  }

  /** Some sort starts with any given earliest entry. */
  lemma StartsWith(low: seq<Entry>, xs: seq<Entry>, e: Entry) returns (y: seq<Entry>)
    requires IsSortOf(low, xs) && Earliest(e, xs)
    ensures IsSortOf(y, xs) && FirstUser(y) == e.userId
  {
    hide Chronological;
    MembersOfSort(low, xs);
    var i :| 0 <= i < |low| && low[i] == e;
    y := [e] + (low[..i] + low[i + 1..]);
    MovedToFront(low, i);
  }

  lemma MovedToFront(low: seq<Entry>, i: nat)
    requires Chronological(low) && i < |low| && forall x <- low :: low[i].createdAt <= x.createdAt
    ensures var y := [low[i]] + (low[..i] + low[i + 1..]); multiset(y) == multiset(low) && Chronological(y)
  {
    var rest := low[..i] + low[i + 1..];
    StillChronological(low, i);
    assert low == low[..i] + [low[i]] + low[i + 1..];
    var y := [low[i]] + rest;
    forall a, b | 0 <= a < b < |y| ensures y[a].createdAt <= y[b].createdAt {
      assert y[b] == rest[b - 1] && rest[b - 1] in low;
      assert a > 0 ==> y[a] == rest[a - 1];
    }
  }

  /** Whether the rebuild matches whatever order tied rows come in: exactly when all
      earliest entries name the user of the last one saved, foreign reversals add nothing,
      and the fees in the order of saving are those with the charges of each time first
      and those with its refunds first. */
  lemma EveryOrderMatches(events: seq<Event>, entriesAt: nat, rowAt: nat, orderId: string, assetId: string,
                          low: seq<Entry>, high: seq<Entry>)
    requires Legal(events) && entriesAt <= |events| && rowAt <= |events|
    requires SortedAt(events, entriesAt, orderId, assetId, low) && ChargesFirst(low, low)
    requires SortedAt(events, entriesAt, orderId, assetId, high) && RefundsFirst(high, high)
    requires Undisturbed(events, entriesAt, rowAt, orderId, assetId) && Sound(events, rowAt, orderId, assetId)
    ensures var w := At(events, entriesAt);
      var xs := InScope(w.db.entries, orderId, assetId);
      (forall sorted | SortedAt(events, entriesAt, orderId, assetId, sorted) ::
        RebuildMatches(Row(At(events, rowAt), orderId, assetId), sorted)) <==>
      (&& (forall e | Earliest(e, xs) :: e.userId == LastUser(xs)) && ForeignRealized(w.db, orderId, assetId, xs) == 0.0
       && Fees(0.0, low, low) == Fees(0.0, xs, w.db.entries) == Fees(0.0, high, high))
  {
    hide Legal, Run, At, Row, Fees, ForeignRealized, Undisturbed, Sound, LastUser, FirstUser, RebuildMatches, EntriesOk,
      InScope, ChargesFirst, RefundsFirst, IsSortOf;
    var (w, row) := (At(events, entriesAt), Row(At(events, rowAt), orderId, assetId));
    var xs := InScope(w.db.entries, orderId, assetId);
    InvAt(events, entriesAt);
    InvMeans(w);
    SortsAgree(w.db, orderId, assetId, low, high, Fees(0.0, xs, w.db.entries));
    forall sorted | SortedAt(events, entriesAt, orderId, assetId, sorted)
      ensures RebuildMatches(row, sorted) <==>
        FirstUser(sorted) == LastUser(xs) && ForeignRealized(w.db, orderId, assetId, xs) == 0.0
        && Fees(0.0, sorted, sorted) == Fees(0.0, xs, w.db.entries)
    {
      RebuildMatchesExactly(events, entriesAt, rowAt, orderId, assetId, sorted);
    }
  }

  lemma SortsAgree(s: State, orderId: string, assetId: string, low: seq<Entry>, high: seq<Entry>, fees: real)
    requires EntriesOk(s.entries) && ChargesFirst(low, low) && RefundsFirst(high, high)
    requires IsSortOf(low, InScope(s.entries, orderId, assetId)) && IsSortOf(high, InScope(s.entries, orderId, assetId))
    ensures var xs := InScope(s.entries, orderId, assetId);
      (forall y | IsSortOf(y, xs) :: FirstUser(y) == LastUser(xs) && Fees(0.0, y, y) == fees) <==>
      ((forall e | Earliest(e, xs) :: e.userId == LastUser(xs)) && Fees(0.0, low, low) == fees == Fees(0.0, high, high))
  {
    hide Fees, EntriesOk, InScope, ChargesFirst, RefundsFirst, IsSortOf, Earliest;
    var xs := InScope(s.entries, orderId, assetId);
    forall y | IsSortOf(y, xs)
      ensures Fees(0.0, low, low) <= Fees(0.0, y, y) <= Fees(0.0, high, high)
      ensures if xs == [] then y == [] else y != [] && Earliest(y[0], xs)
    {
      SortsLieBetween(s, orderId, assetId, low, high, y);
      FirstIsEarliest(y, xs);
    }
    forall e | Earliest(e, xs) ensures exists y | IsSortOf(y, xs) :: FirstUser(y) == e.userId {
      var y := StartsWith(low, xs, e);
    }
  }

  lemma MembersOfSort(sorted: seq<Entry>, xs: seq<Entry>)
    requires multiset(sorted) == multiset(xs)
    ensures (forall e :: e in sorted <==> e in xs) && |sorted| == |xs|
    ensures forall e :: Earliest(e, sorted) <==> Earliest(e, xs)
  {
    assert forall e :: e in sorted <==> e in multiset(sorted);
    assert forall e :: e in xs <==> e in multiset(xs);
    assert |multiset(sorted)| == |sorted| && |multiset(xs)| == |xs|;
  }

  lemma FirstIsEarliest(sorted: seq<Entry>, xs: seq<Entry>)
    requires IsSortOf(sorted, xs)
    ensures if xs == [] then sorted == [] else sorted != [] && Earliest(sorted[0], xs)
  {
    MembersOfSort(sorted, xs);
  }

  lemma SortedIs(events: seq<Event>, n: nat, orderId: string, assetId: string, sorted: seq<Entry>)
    requires n <= |events| && SortedAt(events, n, orderId, assetId, sorted)
    ensures IsSortOf(sorted, InScope(At(events, n).db.entries, orderId, assetId))
  {
  }

  lemma MatchesSplit(row: Balance, user: string, expected: Books)
    ensures Matches(row, user, expected) <==>
      row.userId == user && SumsMatch(row, expected) && row.books.feePaid == expected.feePaid
  {
  }

  /** The order of the two reads makes no difference to what the same entries replay to. */
  lemma StoredReplay(events: seq<Event>, m: nat, n: nat, orderId: string, assetId: string)
    requires Legal(events) && m <= |events| && n <= |events|
    requires InScope(At(events, m).db.entries, orderId, assetId) == InScope(At(events, n).db.entries, orderId, assetId)
    ensures var xs := InScope(At(events, m).db.entries, orderId, assetId);
      Replay(xs, At(events, m).db.entries) == Replay(xs, At(events, n).db.entries)
  {
    hide Legal, Run, At, Replay, InScope;
    if m <= n {
      ReplayIsStable(events, m, n, orderId, assetId); } else { ReplayIsStable(events, n, m, orderId, assetId);
    }
  }

  lemma {:induction false} ReplayIsStable(events: seq<Event>, m: nat, n: nat, orderId: string, assetId: string)
    requires Legal(events) && m <= n <= |events|
    ensures var xs := InScope(At(events, m).db.entries, orderId, assetId);
      Replay(xs, At(events, n).db.entries) == Replay(xs, At(events, m).db.entries)
    decreases n
  {
    hide Legal, Run, At, Replay, EntriesOk, IsFor, Step, Allowed, ReadsAreReal, RowRead, Inv, Saves, SavedEntry,
      FreshId;
    if m < n {
      ReplayIsStable(events, m, n - 1, orderId, assetId);
      InvAt(events, n - 1);
      LegalAt(events, n - 1);
      StepAt(events, n - 1);
      EntriesOnlyGrow(events, m, n - 1);
      var (w, e) := (At(events, n - 1), events[n - 1]);
      StepEntries(w, RowRead(events[..n - 1], e), e);
      if Saves(w, e) {
        SavedFields(w, e);
        var xs := At(events, m).db.entries;
        ChosenMembers(xs, Stored, orderId, assetId);
        ReplayIgnoresNewId(InScope(xs, orderId, assetId), w.db.entries, SavedEntry(w, e));
      }
    }
  }

  /** Reversals of other scopes' entries that add up to something are always reported as
      a mismatch by an undisturbed rebuild of a sound balance, in whatever order. */
  lemma ForeignReversalsBreakRebuild(events: seq<Event>, entriesAt: nat, rowAt: nat, orderId: string, assetId: string,
                                     sorted: seq<Entry>)
    requires Legal(events) && entriesAt <= |events| && rowAt <= |events|
    requires SortedAt(events, entriesAt, orderId, assetId, sorted)
    requires Undisturbed(events, entriesAt, rowAt, orderId, assetId) && Sound(events, rowAt, orderId, assetId)
    requires Unseen(At(events, entriesAt), orderId, assetId) != NOTHING
    ensures !RebuildMatches(Row(At(events, rowAt), orderId, assetId), sorted)
  {
    hide Legal, Run, At, SortedAt, Undisturbed, Sound, Unseen, Row, Replay;
    RebuildAgreesOnSums(events, entriesAt, rowAt, orderId, assetId, sorted);
  }
}
