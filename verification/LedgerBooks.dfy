/** The accounts of the ledger: for every run, exactly how far each stored balance is
    from what its entries add up to, and why. */
module LedgerBooks {
  import opened BalanceLedger
  import opened LedgerOrderScope
  import opened LedgerRuns
  import opened Outcomes
  import opened Text

  // ---- sums ----

  /** The part of the books that is a plain sum over the entries. */
  datatype Sums = Sums(funds: Funds, initialDeposit: real, realizedDelta: real) {
    function Plus(w: Sums): Sums {
      Sums(funds.Plus(w.funds), initialDeposit + w.initialDeposit, realizedDelta + w.realizedDelta)
    }

    function Minus(w: Sums): Sums {
      Sums(funds.Minus(w.funds), initialDeposit - w.initialDeposit, realizedDelta - w.realizedDelta)
    }
  }

  const NOTHING := Sums(NO_FUNDS, 0.0, 0.0)

  function SumsOf(b: Books): Sums { Sums(b.funds, b.initialDeposit, b.realizedDelta) }

  function Weight(e: Entry, pool: seq<Entry>): Sums {
    Sums(Effect(e.kind, e.amount), if e.kind.DepositCredit? then e.amount else 0.0,
         Realized(e.kind, e.amount, KindOf(pool, e.reversalOf)))
  }

  function Sum(xs: seq<Entry>, pool: seq<Entry>): Sums {
    if xs == [] then NOTHING else Sum(xs[..|xs| - 1], pool).Plus(Weight(xs[|xs| - 1], pool))
  }

  lemma PostAddsWeight(b: Books, e: Entry, pool: seq<Entry>)
    ensures SumsOf(Post(b, e.kind, e.amount, KindOf(pool, e.reversalOf))) == SumsOf(b).Plus(Weight(e, pool))
  {
    hide Effect, Realized, NextFee, KindOf;
  }

  lemma {:induction false} ReplayIsSum(xs: seq<Entry>, pool: seq<Entry>)
    ensures SumsOf(Replay(xs, pool)) == Sum(xs, pool)
  {
    hide Post, Weight;
    if xs != [] {
      var init, e := xs[..|xs| - 1], xs[|xs| - 1];
      ReplayIsSum(init, pool);
      PostAddsWeight(Replay(init, pool), e, pool);
    }
  }

  function LastUser(xs: seq<Entry>): string { if xs == [] then "" else xs[|xs| - 1].userId }

  // ---- an entry more ----

  lemma ReplayAppend(xs: seq<Entry>, e: Entry, pool: seq<Entry>)
    ensures Replay(xs + [e], pool) == Post(Replay(xs, pool), e.kind, e.amount, KindOf(pool, e.reversalOf))
  {
    assert (xs + [e])[..|xs|] == xs;
  }

  /** A new entry that no listed entry refers to changes no replay. */
  lemma {:induction false} ReplayIgnoresNewId(xs: seq<Entry>, pool: seq<Entry>, e: Entry)
    requires forall x <- xs :: x.reversalOf != e.entryId
    ensures Replay(xs, pool + [e]) == Replay(xs, pool)
  {
    hide Post;
    if xs != [] {
      var last := xs[|xs| - 1];
      assert last in xs;
      ReplayIgnoresNewId(xs[..|xs| - 1], pool, e);
      KindOfAppend(pool, e, last.reversalOf);
    }
  }

  ghost predicate NewTo(xs: seq<Entry>, e: Entry) {
    e.entryId != e.reversalOf && forall x <- xs :: x.reversalOf != e.entryId
  }

  /** A new entry adds to the replay of its own order and asset, on either side, and
      leaves every other replay alone. */
  lemma ReplayAfterSave(xs: seq<Entry>, e: Entry, side: IdSide, orderId: string, assetId: string)
    requires NewTo(xs, e)
    ensures Replay(Chosen(xs + [e], side, orderId, assetId), xs + [e])
         == var before := Replay(Chosen(xs, side, orderId, assetId), xs);
            if IsFor(e, side, orderId, assetId) then Post(before, e.kind, e.amount, KindOf(xs, e.reversalOf))
              else before
  {
    hide Post, IsFor;
    var chosen := Chosen(xs, side, orderId, assetId);
    ChosenAppend(xs, e, side, orderId, assetId);
    ChosenMembers(xs, side, orderId, assetId);
    ReplayIgnoresNewId(chosen, xs, e);
    KindOfAppend(xs, e, e.reversalOf);
    ReplayAppend(chosen, e, xs + [e]);
    assert chosen + [] == chosen;
  }

  // ---- what a balance is going to be ----

  /** The row, or what the mutation in flight on it read or is about to write. */
  function ToBe(w: World, orderId: string, assetId: string): Balance {
    var key := (orderId, assetId);
    if key !in w.inFlight then Row(w, orderId, assetId)
    else if w.inFlight[key].entry.Some? then ToWrite(w.inFlight[key])
    else w.inFlight[key].read
  }

  /** The event ends a mutation on this balance before its balance is saved. */
  predicate Drops(w: World, e: Event, orderId: string, assetId: string) {
    && (orderId, assetId) in w.inFlight
    && (|| e.Restart?
        || (e.Fail? && e.orderId == orderId && e.assetId == assetId)
        || (e.SaveEntry? && e.orderId == orderId && e.assetId == assetId
            && w.inFlight[(orderId, assetId)].entry.None? && !Saves(w, e)))
  }

  /** The event puts a new row in place of what was written to this balance. */
  predicate Overwrites(w: World, e: Event, orderId: string, assetId: string) {
    e.CreateRow? && e.orderId == orderId && e.assetId == assetId && (orderId, assetId) !in w.inFlight
  }

  /** What is left of a balance after such an event. */
  function LeftBy(w: World, e: Event, orderId: string, assetId: string): Balance {
    if e.CreateRow? then FreshBalance(orderId) else Row(w, orderId, assetId)
  }

  /** The event loses something that was written, or about to be, on this balance. */
  predicate Loses(w: World, e: Event, orderId: string, assetId: string) {
    && (Drops(w, e, orderId, assetId) || Overwrites(w, e, orderId, assetId))
    && ToBe(w, orderId, assetId) != LeftBy(w, e, orderId, assetId)
  }

  predicate SavesFor(w: World, e: Event, orderId: string, assetId: string) {
    Saves(w, e) && e.orderId == orderId && e.assetId == assetId
  }

  /** An event changes what a balance is going to be by saving an entry of it or by
      losing something, and in no other way. */
  lemma StepMovesToBe(w: World, row: Balance, e: Event, orderId: string, assetId: string)
    requires Inv(w) && Allowed(w, e)
    ensures var (before, after) := (ToBe(w, orderId, assetId), ToBe(Step(w, row, e), orderId, assetId));
      if SavesFor(w, e, orderId, assetId) then
        after == NextFrom(before, SavedEntry(w, e), w.inFlight[(orderId, assetId)].reversed)
      else if Loses(w, e, orderId, assetId) then after == LeftBy(w, e, orderId, assetId)
      else after == before
  {
    hide EntryOf, FindByKey, Refusal, FreshBalance, KindOf, RebuildMatches, NextFrom, Inv;
  }

  /** What saving an entry adds, seen from the list: the entries given to this balance. */
  function GivenTo(xs: seq<Entry>, orderId: string, assetId: string): seq<Entry> { Chosen(xs, Given, orderId, assetId) }

  lemma SavedFields(w: World, e: Event)
    requires Inv(w) && Allowed(w, e) && Saves(w, e)
    ensures var (x, m) := (SavedEntry(w, e), w.inFlight[(e.orderId, e.assetId)]);
      && NewTo(w.db.entries, x) && x.assetId == e.assetId && x.content.orderId == e.orderId
      && x.scope.ledgerOrderId == Trim(e.orderId) && x.amount != 0.0 && x.kind == m.kind && x.userId == m.cmd.userId
      && (x.kind.Reversal? ==> m.reversed == KindOf(w.db.entries, x.reversalOf))
  {
    hide EntryOf, FindByKey, KindOf, EntriesOk, Trim;
    var m := w.inFlight[(e.orderId, e.assetId)];
    assert InFlightOk(w.db, (e.orderId, e.assetId), m);
    NewEntryFields(m, e.id, e.now);
  }

  lemma StepEntries(w: World, row: Balance, e: Event)
    ensures Step(w, row, e).db.entries == if Saves(w, e) then w.db.entries + [SavedEntry(w, e)] else w.db.entries
  {
    hide EntryOf, FindByKey, Refusal, FreshBalance, KindOf, RebuildMatches, NextFrom, Admitted, NewInFlight;
  }

  lemma GivenAfterStep(w: World, row: Balance, e: Event, orderId: string, assetId: string)
    requires Inv(w) && Allowed(w, e)
    ensures var (xs, xs') := (w.db.entries, Step(w, row, e).db.entries);
      var (given, given') := (GivenTo(xs, orderId, assetId), GivenTo(xs', orderId, assetId));
      if SavesFor(w, e, orderId, assetId) then
        given' == given + [SavedEntry(w, e)]
        && Replay(given', xs') == Post(Replay(given, xs), SavedEntry(w, e).kind, SavedEntry(w, e).amount,
          w.inFlight[(orderId, assetId)].reversed)
      else given' == given && Replay(given', xs') == Replay(given, xs)
  {
    hide EntryOf, SavedEntry, Post, Replay, Chosen, KindOf, FindByKey, Inv, Allowed, Step, NewTo, InFlightOk;
    StepEntries(w, row, e);
    if Saves(w, e) {
      var x := SavedEntry(w, e);
      SavedFields(w, e);
      ReplayAfterSave(w.db.entries, x, Given, orderId, assetId);
      ChosenAppend(w.db.entries, x, Given, orderId, assetId);
      assert GivenTo(w.db.entries, orderId, assetId) + [] == GivenTo(w.db.entries, orderId, assetId);
      if SavesFor(w, e, orderId, assetId) {
        PostIgnores(Replay(GivenTo(w.db.entries, orderId, assetId), w.db.entries), x.kind, x.amount,
                    w.inFlight[(orderId, assetId)].reversed, KindOf(w.db.entries, x.reversalOf));
      }
    }
  }

  // ---- runs without losses ----

  predicate LosesAt(events: seq<Event>, n: nat, orderId: string, assetId: string)
    requires n < |events|
  {
    Loses(At(events, n), events[n], orderId, assetId)
  }

  /** The first n events lose nothing on this balance. */
  predicate Lossless(events: seq<Event>, n: nat, orderId: string, assetId: string)
    requires n <= |events|
  {
    forall k | 0 <= k < n :: !LosesAt(events, k, orderId, assetId)
  }

  /** The books and the user are what the entries given to this balance add up to. */
  ghost predicate HasGiven(w: World, b: Balance, orderId: string, assetId: string) {
    var given := GivenTo(w.db.entries, orderId, assetId);
    b.books == Replay(given, w.db.entries) && b.userId == LastUser(given)
  }

  lemma StepKeepsGiven(w: World, row: Balance, e: Event, orderId: string, assetId: string)
    requires Inv(w) && Allowed(w, e) && !Loses(w, e, orderId, assetId)
    requires HasGiven(w, ToBe(w, orderId, assetId), orderId, assetId)
    ensures var w' := Step(w, row, e); HasGiven(w', ToBe(w', orderId, assetId), orderId, assetId)
  {
    hide EntryOf, SavedEntry, Post, Replay, GivenTo, KindOf, Inv, Allowed, Step, ToBe, Loses;
    StepMovesToBe(w, row, e, orderId, assetId);
    GivenAfterStep(w, row, e, orderId, assetId);
  }

  lemma StartHasGiven(orderId: string, assetId: string)
    ensures HasGiven(START, ToBe(START, orderId, assetId), orderId, assetId)
  {
    hide FreshBalance;
    NothingYet(orderId, assetId);
  }

  /** In every run, as long as nothing is lost on it, a balance is exactly what the
      entries given to it add up to, once its mutation in flight is written. */
  lemma {:induction false} RunKeepsGiven(events: seq<Event>, n: nat, orderId: string, assetId: string)
    requires Legal(events) && n <= |events| && Lossless(events, n, orderId, assetId)
    ensures HasGiven(At(events, n), ToBe(At(events, n), orderId, assetId), orderId, assetId)
  {
    hide Legal, Run, Inv, Allowed, ReadsAreReal, Step, ToBe, Loses, HasGiven, RowRead;
    if n == 0 {
      assert events[..0] == [];
      RunOfNothing();
      StartHasGiven(orderId, assetId);
    } else {
      RunKeepsGiven(events, n - 1, orderId, assetId);
      InvAt(events, n - 1);
      LegalAt(events, n - 1);
      StepAt(events, n - 1);
      assert !LosesAt(events, n - 1, orderId, assetId);
      StepKeepsGiven(At(events, n - 1), RowRead(events[..n - 1], events[n - 1]), events[n - 1], orderId, assetId);
    }
  }

  // ---- entries that were given to another balance ----

  /** What entries stored for this order but given to a balance of another id add up to,
      less what entries given to this balance but stored for another order do. */
  function Strays(xs: seq<Entry>, pool: seq<Entry>, orderId: string, assetId: string): Sums {
    if xs == [] then NOTHING else
      var (rest, e) := (Strays(xs[..|xs| - 1], pool, orderId, assetId), xs[|xs| - 1]);
      if IsFor(e, Stored, orderId, assetId) && !IsFor(e, Given, orderId, assetId) then rest.Plus(Weight(e, pool))
      else if !IsFor(e, Stored, orderId, assetId) && IsFor(e, Given, orderId, assetId) then rest.Minus(Weight(e, pool))
      else rest
  }

  predicate NoStrays(xs: seq<Entry>, orderId: string, assetId: string) {
    forall e <- xs :: IsFor(e, Stored, orderId, assetId) <==> IsFor(e, Given, orderId, assetId)
  }

  lemma SumAppend(xs: seq<Entry>, e: Entry, pool: seq<Entry>)
    ensures Sum(xs + [e], pool) == Sum(xs, pool).Plus(Weight(e, pool))
  {
    assert (xs + [e])[..|xs|] == xs;
  }

  lemma {:induction false} StraysAreTheDifference(xs: seq<Entry>, pool: seq<Entry>, orderId: string, assetId: string)
    ensures Sum(Chosen(xs, Stored, orderId, assetId), pool)
         == Sum(Chosen(xs, Given, orderId, assetId), pool).Plus(Strays(xs, pool, orderId, assetId))
  {
    hide Sum, Weight, IsFor;
    if xs == [] {
      assert Sum([], pool) == NOTHING by { SumOfNothing(pool); }
    } else {
      var init, e := xs[..|xs| - 1], xs[|xs| - 1];
      StraysAreTheDifference(init, pool, orderId, assetId);
      SumAppend(Chosen(init, Stored, orderId, assetId), e, pool);
      SumAppend(Chosen(init, Given, orderId, assetId), e, pool);
    }
  }

  lemma SumOfNothing(pool: seq<Entry>)
    ensures Sum([], pool) == NOTHING
  {
  }

  lemma {:induction false} NoStraysAddNothing(xs: seq<Entry>, pool: seq<Entry>, orderId: string, assetId: string)
    requires NoStrays(xs, orderId, assetId)
    ensures Strays(xs, pool, orderId, assetId) == NOTHING
    ensures Chosen(xs, Stored, orderId, assetId) == Chosen(xs, Given, orderId, assetId)
  {
    hide Weight, IsFor;
    if xs != [] {
      assert xs[|xs| - 1] in xs;
      NoStraysAddNothing(xs[..|xs| - 1], pool, orderId, assetId);
    }
  }

  // ---- the account of every balance ----

  function Ledger(w: World, orderId: string, assetId: string): Sums {
    Sum(InScope(w.db.entries, orderId, assetId), w.db.entries)
  }

  /** What a balance has missed, by its entries. */
  function Gap(w: World, orderId: string, assetId: string): Sums {
    Ledger(w, orderId, assetId).Minus(SumsOf(Row(w, orderId, assetId).books))
  }

  /** What a mutation in flight is still going to write. */
  function Unsaved(w: World, orderId: string, assetId: string): Sums {
    SumsOf(ToBe(w, orderId, assetId).books).Minus(SumsOf(Row(w, orderId, assetId).books))
  }

  function StraysIn(w: World, orderId: string, assetId: string): Sums {
    Strays(w.db.entries, w.db.entries, orderId, assetId)
  }

  function Loss(w: World, e: Event, orderId: string, assetId: string): Sums {
    if Loses(w, e, orderId, assetId)
    then SumsOf(ToBe(w, orderId, assetId).books).Minus(SumsOf(LeftBy(w, e, orderId, assetId).books))
    else NOTHING
  }

  /** What the first n events lost on this balance. */
  function Lost(events: seq<Event>, n: nat, orderId: string, assetId: string): Sums
    requires n <= |events|
  {
    if n == 0 then NOTHING
    else Lost(events, n - 1, orderId, assetId).Plus(Loss(At(events, n - 1), events[n - 1], orderId, assetId))
  }

  lemma LostOneMore(events: seq<Event>, n: nat, orderId: string, assetId: string)
    requires 0 < n <= |events|
    ensures Lost(events, n, orderId, assetId)
         == Lost(events, n - 1, orderId, assetId).Plus(Loss(At(events, n - 1), events[n - 1], orderId, assetId))
  {
  }

  lemma StepKeepsAccount(w: World, row: Balance, e: Event, orderId: string, assetId: string, lost: Sums)
    requires Inv(w) && Allowed(w, e)
    requires SumsOf(ToBe(w, orderId, assetId).books).Plus(lost)
          == Sum(GivenTo(w.db.entries, orderId, assetId), w.db.entries)
    ensures var w' := Step(w, row, e);
      SumsOf(ToBe(w', orderId, assetId).books).Plus(lost.Plus(Loss(w, e, orderId, assetId)))
      == Sum(GivenTo(w'.db.entries, orderId, assetId), w'.db.entries)
  {
    hide EntryOf, SavedEntry, FindByKey, Post, Replay, Sum, GivenTo, KindOf, Inv, Allowed, Step, ToBe, LeftBy, Drops,
      Overwrites;
    var w' := Step(w, row, e);
    StepMovesToBe(w, row, e, orderId, assetId);
    GivenAfterStep(w, row, e, orderId, assetId);
    ReplayIsSum(GivenTo(w.db.entries, orderId, assetId), w.db.entries);
    ReplayIsSum(GivenTo(w'.db.entries, orderId, assetId), w'.db.entries);
    if SavesFor(w, e, orderId, assetId) {
      LossIsExclusive(w, e, orderId, assetId);
      var reversed := w.inFlight[(orderId, assetId)].reversed;
      PostShifts(ToBe(w, orderId, assetId).books, Replay(GivenTo(w.db.entries, orderId, assetId), w.db.entries),
                 SavedEntry(w, e).kind, SavedEntry(w, e).amount, reversed, lost);
    }
  }

  lemma LossIsExclusive(w: World, e: Event, orderId: string, assetId: string)
    requires SavesFor(w, e, orderId, assetId)
    ensures (orderId, assetId) in w.inFlight && !Loses(w, e, orderId, assetId)
  {
    hide FindByKey;
  }

  lemma PostShifts(b: Books, c: Books, kind: EntryType, amount: real, reversed: Option<EntryType>, lost: Sums)
    requires SumsOf(b).Plus(lost) == SumsOf(c)
    ensures SumsOf(Post(b, kind, amount, reversed)).Plus(lost) == SumsOf(Post(c, kind, amount, reversed))
  {
    hide Effect, Realized, NextFee;
  }

  lemma {:induction false} RunKeepsAccount(events: seq<Event>, n: nat, orderId: string, assetId: string)
    requires Legal(events) && n <= |events|
    ensures var w := At(events, n);
      SumsOf(ToBe(w, orderId, assetId).books).Plus(Lost(events, n, orderId, assetId))
      == Sum(GivenTo(w.db.entries, orderId, assetId), w.db.entries)
  {
    hide Legal, Run, Inv, Allowed, ReadsAreReal, Step, ToBe, Loss, RowRead, Sum, GivenTo;
    if n == 0 {
      assert events[..0] == [];
      RunOfNothing();
      StartHasSums(orderId, assetId);
    } else {
      RunKeepsAccount(events, n - 1, orderId, assetId);
      InvAt(events, n - 1);
      LegalAt(events, n - 1);
      StepAt(events, n - 1);
      StepKeepsAccount(At(events, n - 1), RowRead(events[..n - 1], events[n - 1]), events[n - 1], orderId, assetId,
                       Lost(events, n - 1, orderId, assetId));
    }
  }

  lemma NothingYet(orderId: string, assetId: string)
    ensures Row(START, orderId, assetId).books == EMPTY_BOOKS && Row(START, orderId, assetId).userId == ""
  {
    hide ResolveTrimmed, Trim, NormalizeAccountLabel;
  }

  lemma StartHasSums(orderId: string, assetId: string)
    ensures SumsOf(ToBe(START, orderId, assetId).books).Plus(NOTHING)
         == Sum(GivenTo(START.db.entries, orderId, assetId), START.db.entries)
  {
    hide FreshBalance;
    NothingYet(orderId, assetId);
  }

  /** The account, in every run and for every order id: a balance is off by exactly the
      strays, what is still being written, and what was lost. */
  lemma GapIsAccounted(events: seq<Event>, n: nat, orderId: string, assetId: string)
    requires Legal(events) && n <= |events|
    ensures var w := At(events, n);
      Gap(w, orderId, assetId)
      == StraysIn(w, orderId, assetId).Plus(Unsaved(w, orderId, assetId)).Plus(Lost(events, n, orderId, assetId))
  {
    hide Legal, Run, At, ToBe, Lost, Sum, Strays, Chosen;
    var w := At(events, n);
    RunKeepsAccount(events, n, orderId, assetId);
    StraysAreTheDifference(w.db.entries, w.db.entries, orderId, assetId);
  }

  lemma {:induction false} LosslessLosesNothing(events: seq<Event>, n: nat, orderId: string, assetId: string)
    requires n <= |events| && Lossless(events, n, orderId, assetId)
    ensures Lost(events, n, orderId, assetId) == NOTHING
  {
    hide Run, Loses;
    if n > 0 {
      LosslessLosesNothing(events, n - 1, orderId, assetId);
      assert !LosesAt(events, n - 1, orderId, assetId);
    }
  }

  /** The stored balance is what its entries add up to. */
  ghost predicate InBooks(w: World, orderId: string, assetId: string) {
    var xs := InScope(w.db.entries, orderId, assetId);
    Row(w, orderId, assetId).books == Replay(xs, w.db.entries) && Row(w, orderId, assetId).userId == LastUser(xs)
  }

  /** Without losses and between mutations, the sums of a balance agree with its entries
      exactly when its strays cancel out; and with no stray at all, everything agrees. */
  lemma RunKeepsBooks(events: seq<Event>, n: nat, orderId: string, assetId: string)
    requires Legal(events) && n <= |events| && Lossless(events, n, orderId, assetId)
    requires (orderId, assetId) !in At(events, n).inFlight
    ensures var w := At(events, n);
      && (Gap(w, orderId, assetId) == NOTHING <==> StraysIn(w, orderId, assetId) == NOTHING)
      && (NoStrays(w.db.entries, orderId, assetId) ==> InBooks(w, orderId, assetId))
  {
    hide Legal, Run, At, Lost, Sum, Strays, Chosen, Replay, Lossless, NoStrays, BalanceOf;
    var w := At(events, n);
    GapIsAccounted(events, n, orderId, assetId);
    LosslessLosesNothing(events, n, orderId, assetId);
    RunKeepsGiven(events, n, orderId, assetId);
    if NoStrays(w.db.entries, orderId, assetId) { NoStraysAddNothing(w.db.entries, w.db.entries, orderId, assetId); }
  }

  /** A command under an id with white space around it, applied from one state to another:
      its entry goes to the trimmed order's account and its balance to the given one, so
      one falls behind by the entry and the other runs ahead by it. */
  lemma UntrimmedIdMovesTwoGaps(w: World, row: Balance, e: Event, assetId: string)
    requires Inv(w) && Allowed(w, e) && Saves(w, e) && e.assetId == assetId && Trim(e.orderId) != e.orderId
    ensures var (w', x) := (Step(w, row, e), SavedEntry(w, e));
      && StraysIn(w', Trim(e.orderId), assetId) == StraysIn(w, Trim(e.orderId), assetId).Plus(Weight(x, w.db.entries))
      && StraysIn(w', e.orderId, assetId) == StraysIn(w, e.orderId, assetId).Minus(Weight(x, w.db.entries))
      && Weight(x, w.db.entries) != NOTHING
  {
    hide EntryOf, SavedEntry, FindByKey, Strays, KindOf, Inv, Allowed, Step, Trim, Weight, NewTo;
    var x := SavedEntry(w, e);
    StepEntries(w, row, e);
    SavedFields(w, e);
    StraysAppend(w.db.entries, x, Trim(e.orderId), assetId);
    StraysAppend(w.db.entries, x, e.orderId, assetId);
    WeightShows(x, w.db.entries);
  }

  /** Every entry moves the available or the locked part. */
  lemma WeightShows(e: Entry, pool: seq<Entry>)
    requires e.amount != 0.0
    ensures Weight(e, pool).funds.available != 0.0 || Weight(e, pool).funds.locked != 0.0
  {
    hide KindOf;
  }

  lemma {:induction false} StraysIgnoreNewId(xs: seq<Entry>, pool: seq<Entry>, e: Entry, orderId: string,
                                             assetId: string)
    requires forall x <- xs :: x.reversalOf != e.entryId
    ensures Strays(xs, pool + [e], orderId, assetId) == Strays(xs, pool, orderId, assetId)
  {
    hide IsFor, Effect, Realized;
    if xs != [] {
      var last := xs[|xs| - 1];
      assert last in xs;
      StraysIgnoreNewId(xs[..|xs| - 1], pool, e, orderId, assetId);
      KindOfAppend(pool, e, last.reversalOf);
    }
  }

  lemma StraysAppend(xs: seq<Entry>, e: Entry, orderId: string, assetId: string)
    requires NewTo(xs, e)
    ensures var (rest, weight) := (Strays(xs, xs, orderId, assetId), Weight(e, xs));
      Strays(xs + [e], xs + [e], orderId, assetId) ==
        if IsFor(e, Stored, orderId, assetId) && !IsFor(e, Given, orderId, assetId) then rest.Plus(weight)
        else if !IsFor(e, Stored, orderId, assetId) && IsFor(e, Given, orderId, assetId) then rest.Minus(weight)
        else rest
  {
    hide IsFor, Effect, Realized;
    assert (xs + [e])[..|xs|] == xs;
    StraysIgnoreNewId(xs, xs, e, orderId, assetId);
    KindOfAppend(xs, e, e.reversalOf);
  }

  // ---- totals ----

  function NetFlow(kind: EntryType, amount: real): real { Effect(kind, amount).Total() }

  function TotalFlow(xs: seq<Entry>): real {
    if xs == [] then 0.0 else TotalFlow(xs[..|xs| - 1]) + NetFlow(xs[|xs| - 1].kind, xs[|xs| - 1].amount)
  }

  lemma {:induction false} ReplayTotal(xs: seq<Entry>, pool: seq<Entry>)
    ensures Replay(xs, pool).funds.Total() == TotalFlow(xs)
  {
    if xs != [] { ReplayTotal(xs[..|xs| - 1], pool); }
  }

  lemma InternalMovesCancel(kind: EntryType, amount: real)
    ensures kind.ReserveLock? || kind.ReserveRelease? || kind.LpRemoveSettle? ==> NetFlow(kind, amount) == 0.0
    ensures kind.LpAddSettle? && amount < 0.0 ==> NetFlow(kind, amount) == 0.0
    ensures !(kind.ReserveLock? || kind.ReserveRelease? || kind.LpRemoveSettle? || kind.LpAddSettle?) ==>
      NetFlow(kind, amount) == amount
  {
  }

  /** A balance's total is what came in minus what went out through it, whatever its id. */
  lemma RunConservesTotals(events: seq<Event>, n: nat, orderId: string, assetId: string)
    requires Legal(events) && n <= |events| && Lossless(events, n, orderId, assetId)
    requires (orderId, assetId) !in At(events, n).inFlight
    ensures var w := At(events, n);
      Row(w, orderId, assetId).total == TotalFlow(GivenTo(w.db.entries, orderId, assetId))
  {
    hide Legal, Run, At, Replay, Lossless, BalanceOf, TotalFlow, EntriesOk, GivenTo, Valid;
    var w := At(events, n);
    RunKeepsGiven(events, n, orderId, assetId);
    InvAt(events, n);
    InvMeans(w);
    BalanceIsValid(w.db, orderId, assetId);
    ReplayTotal(GivenTo(w.db.entries, orderId, assetId), w.db.entries);
  }
}
