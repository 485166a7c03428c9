/** Lost writes, and the pause of reservations that a rebuild sets and lifts. */
module LedgerPauses {
  import opened BalanceLedger
  import opened LedgerBooks
  import opened LedgerOrderScope
  import opened LedgerRebuild
  import opened LedgerRuns
  import opened LockKeys
  import opened Outcomes
  import opened Text

  // ---- lost writes ----

  /** The event ends a mutation on this balance whose entry is saved and whose balance is
      not, and the row is still the one that mutation read. */
  predicate LosesWrite(w: World, e: Event, orderId: string, assetId: string) {
    && Drops(w, e, orderId, assetId) && w.inFlight[(orderId, assetId)].entry.Some?
    && Row(w, orderId, assetId) == w.inFlight[(orderId, assetId)].read
  }

  lemma LostWriteIsItsEntry(w: World, e: Event, orderId: string, assetId: string)
    requires Inv(w) && LosesWrite(w, e, orderId, assetId)
    ensures Loses(w, e, orderId, assetId)
    ensures Loss(w, e, orderId, assetId) == Weight(w.inFlight[(orderId, assetId)].entry.value, w.db.entries)
    ensures Loss(w, e, orderId, assetId).funds != NO_FUNDS
  {
    hide Trim, KindOf, Effect, FindByKey, Realized, NextFee, EntriesOk, Row, FreshBalance, EntryOf, NewEntry;
    var m := w.inFlight[(orderId, assetId)];
    assert InFlightOk(w.db, (orderId, assetId), m);
    var x := m.entry.value;
    NewEntryFields(m, x.entryId, x.createdAt);
    NextShifts(m.read, x, m.reversed, KindOf(w.db.entries, x.reversalOf));
    WeightShows(x, w.db.entries);
    SignedIsNotNothing(m.kind, m.amount);
  }

  lemma SignedIsNotNothing(kind: EntryType, amount: real)
    requires amount != 0.0
    ensures SignedAmount(kind, amount) != 0.0
  {
  }

  lemma NextShifts(read: Balance, x: Entry, reversed: Option<EntryType>, found: Option<EntryType>)
    requires x.kind.Reversal? ==> reversed == found
    ensures var next := NextFrom(read, x, reversed).books;
      SumsOf(next).Minus(SumsOf(read.books))
      == Sums(Effect(x.kind, x.amount), if x.kind.DepositCredit? then x.amount else 0.0,
              Realized(x.kind, x.amount, found))
  {
    hide Effect, NextFee;
  }

  /** The run loses nothing on this balance but the one write at `lostAt`. */
  predicate LosesOnly(events: seq<Event>, lostAt: nat, orderId: string, assetId: string) {
    && lostAt < |events| && LosesWrite(At(events, lostAt), events[lostAt], orderId, assetId)
    && forall k | 0 <= k < |events| && k != lostAt :: !LosesAt(events, k, orderId, assetId)
  }

  lemma {:induction false} LostSoFar(events: seq<Event>, lostAt: nat, n: nat, orderId: string, assetId: string)
    requires Legal(events) && LosesOnly(events, lostAt, orderId, assetId) && n <= |events|
    ensures Lost(events, n, orderId, assetId)
         == if n <= lostAt then NOTHING else Loss(At(events, lostAt), events[lostAt], orderId, assetId)
  {
    hide *;
    if n == 0 {
      LostNothingYet(events, orderId, assetId);
    } else {
      LostOneMore(events, n, orderId, assetId);
      LostSoFar(events, lostAt, n - 1, orderId, assetId);
      NothingPlus(Loss(At(events, n - 1), events[n - 1], orderId, assetId));
      NothingPlus(Lost(events, n - 1, orderId, assetId));
      if n - 1 != lostAt { LosesOnlyThere(events, lostAt, n - 1, orderId, assetId); }
    }
  }

  lemma LosesOnlyThere(events: seq<Event>, lostAt: nat, n: nat, orderId: string, assetId: string)
    requires LosesOnly(events, lostAt, orderId, assetId) && n < |events| && n != lostAt
    ensures Loss(At(events, n), events[n], orderId, assetId) == NOTHING
  {
    hide At, Loses, LosesWrite, Loss;
    assert !LosesAt(events, n, orderId, assetId);
    NoLoss(At(events, n), events[n], orderId, assetId);
  }

  lemma LostNothingYet(events: seq<Event>, orderId: string, assetId: string)
    ensures Lost(events, 0, orderId, assetId) == NOTHING
  {
  }

  lemma NoLoss(w: World, e: Event, orderId: string, assetId: string)
    requires !Loses(w, e, orderId, assetId)
    ensures Loss(w, e, orderId, assetId) == NOTHING
  {
    hide Loses;
  }

  lemma NothingPlus(a: Sums)
    ensures NOTHING.Plus(a) == a == a.Plus(NOTHING)
  {
  }

  /** After any losses whose funds do not cancel out, every rebuild that nothing disturbs
      reports a mismatch, whatever is done in between, retries and restarts included. */
  lemma LossesAreFound(events: seq<Event>, entriesAt: nat, rowAt: nat, orderId: string, assetId: string,
                       sorted: seq<Entry>)
    requires Legal(events) && rowAt <= |events| && entriesAt <= |events|
    requires Lost(events, rowAt, orderId, assetId).funds != NO_FUNDS
    requires SortedAt(events, entriesAt, orderId, assetId, sorted)
    requires Undisturbed(events, entriesAt, rowAt, orderId, assetId)
    requires NoStrays(At(events, rowAt).db.entries, orderId, assetId)
    ensures !RebuildMatches(Row(At(events, rowAt), orderId, assetId), sorted)
  {
    hide Legal, Run, At, Lost, SortedAt, Undisturbed, NoStrays, RebuildMatches, Row, MissingAt, HiddenFrom;
    if RebuildMatches(Row(At(events, rowAt), orderId, assetId), sorted) {
      LossesAreMissing(events, entriesAt, rowAt, orderId, assetId);
      MatchMeansHidden(events, entriesAt, rowAt, orderId, assetId, sorted);
    }
  }

  lemma LossesAreMissing(events: seq<Event>, entriesAt: nat, rowAt: nat, orderId: string, assetId: string)
    requires Legal(events) && rowAt <= |events| && entriesAt <= |events|
    requires Lost(events, rowAt, orderId, assetId).funds != NO_FUNDS
    requires Undisturbed(events, entriesAt, rowAt, orderId, assetId)
    requires NoStrays(At(events, rowAt).db.entries, orderId, assetId)
    ensures MissingAt(events, rowAt, orderId, assetId) != HiddenFrom(events, entriesAt, rowAt, orderId, assetId)
  {
    hide Legal, Run, At, Undisturbed, NoStrays, Moved, Lost, Unsaved, Strays, ForeignRealized, InScope;
    UndisturbedMovesNothing(events, entriesAt, rowAt, orderId, assetId);
    var xs := At(events, rowAt).db.entries;
    NoStraysAddNothing(xs, xs, orderId, assetId);
    NothingPlus(Lost(events, rowAt, orderId, assetId));
    NothingPlus(NOTHING);
    NothingPlus(Unseen(At(events, entriesAt), orderId, assetId));
  }

  lemma LostWriteIsLost(events: seq<Event>, lostAt: nat, n: nat, orderId: string, assetId: string)
    requires Legal(events) && LosesOnly(events, lostAt, orderId, assetId) && lostAt < n <= |events|
    ensures Lost(events, n, orderId, assetId).funds != NO_FUNDS
  {
    hide Legal, Run, At, Loss, Loses, Lost, Drops, Weight, Row;
    LostSoFar(events, lostAt, n, orderId, assetId);
    InvAt(events, lostAt);
    LostWriteIsItsEntry(At(events, lostAt), events[lostAt], orderId, assetId);
  }

  /** In particular after one lost write. */
  lemma LostWriteIsFound(events: seq<Event>, lostAt: nat, entriesAt: nat, rowAt: nat, orderId: string, assetId: string,
                         sorted: seq<Entry>)
    requires Legal(events) && LosesOnly(events, lostAt, orderId, assetId)
    requires lostAt < rowAt <= |events| && entriesAt <= |events|
    requires SortedAt(events, entriesAt, orderId, assetId, sorted)
    requires Undisturbed(events, entriesAt, rowAt, orderId, assetId)
    requires NoStrays(At(events, rowAt).db.entries, orderId, assetId)
    ensures !RebuildMatches(Row(At(events, rowAt), orderId, assetId), sorted)
  {
    hide Legal, Run, At, LosesOnly, SortedAt, Undisturbed, NoStrays, RebuildMatches, Row, Lost;
    LostWriteIsLost(events, lostAt, rowAt, orderId, assetId);
    LossesAreFound(events, entriesAt, rowAt, orderId, assetId, sorted);
  }

  // ---- the pause ----

  /** Event k is a rebuild of this balance for which what was missing at its reading of
      the row equals what was hidden from it. */
  predicate LooksSettled(events: seq<Event>, k: nat, orderId: string, assetId: string)
    requires k < |events|
  {
    var e := events[k];
    && e.Rebuild? && e.orderId == orderId && e.assetId == assetId && e.entriesAt <= k && e.rowAt <= k
    && MissingAt(events, e.rowAt, orderId, assetId) == HiddenFrom(events, e.entriesAt, e.rowAt, orderId, assetId)
  }

  lemma StepLiftsPause(w: World, row: Balance, e: Event, key: string)
    requires key in w.db.paused && key !in Step(w, row, e).db.paused
    ensures e.Restart? || (e.Rebuild? && LockKey(e.orderId, e.assetId) == key && RebuildMatches(row, e.sorted))
  {
    hide Admitted, EntryOf, ToWrite, FindByKey, RebuildMatches, LockKey, FreshBalance, Trim;
  }

  lemma SamePrefix(events: seq<Event>, m: nat, n: nat)
    requires m <= n <= |events|
    ensures events[..n][..m] == events[..m]
  {
  }

  /** A rebuild in the run read real rows, so if it reports a match it looked settled. */
  lemma MatchLooksSettled(events: seq<Event>, k: nat)
    requires Legal(events) && k < |events| && events[k].Rebuild?
    requires RebuildMatches(RowRead(events[..k], events[k]), events[k].sorted)
    ensures LooksSettled(events, k, events[k].orderId, events[k].assetId)
  {
    hide Legal, Run, RebuildMatches, IsSortOf, InScope, MissingAt, HiddenFrom;
    LegalAt(events, k);
    var e := events[k];
    SamePrefix(events, e.rowAt, k);
    SamePrefix(events, e.entriesAt, k);
    MatchMeansHidden(events, e.entriesAt, e.rowAt, e.orderId, e.assetId, e.sorted);
  }

  predicate IsRebuildUnder(e: Event, key: string) { e.Rebuild? && LockKey(e.orderId, e.assetId) == key }

  /** Event k can end a pause on this key: a restart, or a rebuild of a balance with this
      key for which what was missing equalled what was hidden. */
  predicate Settles(events: seq<Event>, k: nat, key: string)
    requires k < |events|
  {
    var e := events[k];
    e.Restart? || (IsRebuildUnder(e, key) && LooksSettled(events, k, e.orderId, e.assetId))
  }

  /** Exactly what can end a pause, in every run and for every key. */
  lemma {:induction false} PauseEndsOnlyBy(events: seq<Event>, from: nat, n: nat, key: string)
    requires Legal(events) && from <= n <= |events|
    requires key in At(events, from).db.paused && key !in At(events, n).db.paused
    ensures exists k | from <= k < n :: Settles(events, k, key)
    decreases n
  {
    hide Legal, Run, At, Step, LooksSettled, LockKey, RebuildMatches, RowRead;
    if key in At(events, n - 1).db.paused {
      var e := events[n - 1];
      StepAt(events, n - 1);
      StepLiftsPause(At(events, n - 1), RowRead(events[..n - 1], e), e, key);
      if !e.Restart? { MatchLooksSettled(events, n - 1); }
      assert Settles(events, n - 1, key);
    } else {
      PauseEndsOnlyBy(events, from, n - 1, key);
      var k :| from <= k < n - 1 && Settles(events, k, key);
    }
  }

  lemma PausedLockIsRefused(s: State, cmd: Command)
    requires LockKey(cmd.orderId, cmd.assetId) in s.paused
    ensures !Admitted(s, ReserveLock, cmd)
  {
    hide ResolveLedgerOrderScope, FindByKey, LockKey, FreshBalance, Effect;
  }

  /** A reservation that starts under a key once paused passes its checks only if since
      then something settled that key. */
  lemma ReservationNeedsSettling(events: seq<Event>, from: nat, cmd: Command)
    requires Legal(events) && from <= |events|
    requires LockKey(cmd.orderId, cmd.assetId) in At(events, from).db.paused
    requires Admitted(Run(events).db, ReserveLock, cmd)
    ensures exists k | from <= k < |events| :: Settles(events, k, LockKey(cmd.orderId, cmd.assetId))
  {
    hide Legal, Run, Settles, LockKey, Admitted;
    assert events[..|events|] == events;
    if LockKey(cmd.orderId, cmd.assetId) in Run(events).db.paused { PausedLockIsRefused(Run(events).db, cmd); }
    PauseEndsOnlyBy(events, from, |events|, LockKey(cmd.orderId, cmd.assetId));
  }

  /** The rebuild at k is of this balance and undisturbed, and by its reading of the row
      funds were lost. */
  predicate FindsLoss(events: seq<Event>, k: nat, orderId: string, assetId: string)
    requires k < |events|
  {
    var e := events[k];
    && e.Rebuild? && e.orderId == orderId && e.assetId == assetId && e.entriesAt <= |events| && e.rowAt <= |events|
    && Undisturbed(events, e.entriesAt, e.rowAt, orderId, assetId)
    && Lost(events, e.rowAt, orderId, assetId).funds != NO_FUNDS
  }

  /** After a pause, as long as the service does not restart, no stray entry concerns the
      balance, and every rebuild under its key is its own and finds the loss: no
      reservation on it passes its checks. */
  lemma LossesStopReservations(events: seq<Event>, from: nat, cmd: Command)
    requires Legal(events) && from <= |events| && LockKey(cmd.orderId, cmd.assetId) in At(events, from).db.paused
    requires NoStrays(Run(events).db.entries, cmd.orderId, cmd.assetId)
    requires forall k | from <= k < |events| :: !events[k].Restart?
    requires forall k | from <= k < |events| && IsRebuildUnder(events[k], LockKey(cmd.orderId, cmd.assetId)) ::
      FindsLoss(events, k, cmd.orderId, cmd.assetId)
    ensures !Admitted(Run(events).db, ReserveLock, cmd)
  {
    hide Legal, Run, At, LooksSettled, LockKey, Admitted, NoStrays, FindsLoss;
    if Admitted(Run(events).db, ReserveLock, cmd) {
      ReservationNeedsSettling(events, from, cmd);
      var k :| from <= k < |events| && Settles(events, k, LockKey(cmd.orderId, cmd.assetId));
      LossUnsettles(events, k, cmd.orderId, cmd.assetId);
    }
  }

  lemma LossUnsettles(events: seq<Event>, k: nat, orderId: string, assetId: string)
    requires Legal(events) && NoStrays(Run(events).db.entries, orderId, assetId) && k < |events|
    requires FindsLoss(events, k, orderId, assetId)
    ensures events[k].Rebuild? && !LooksSettled(events, k, events[k].orderId, events[k].assetId)
  {
    hide Legal, Run, Undisturbed, NoStrays, MissingAt, HiddenFrom, Lost;
    var e := events[k];
    NoStraysBefore(events, e.rowAt, orderId, assetId);
    LossesAreMissing(events, e.entriesAt, e.rowAt, orderId, assetId);
  }

  predicate IsRebuildOf(e: Event, orderId: string, assetId: string) {
    e.Rebuild? && e.orderId == orderId && e.assetId == assetId
  }

  /** The rebuild at k read its row after event `after`, undisturbed. */
  predicate ReadsUndisturbed(events: seq<Event>, k: nat, after: nat)
    requires k < |events|
  {
    var e := events[k];
    && e.Rebuild? && after < e.rowAt <= |events| && e.entriesAt <= |events|
    && Undisturbed(events, e.entriesAt, e.rowAt, e.orderId, e.assetId)
  }

  /** No rebuilt asset is a colon-suffix of this one or the other way round, so that a
      rebuild under a key of this asset is of its own balance. */
  predicate StandsApart(events: seq<Event>, assetId: string) {
    forall e <- events :: e.Rebuild? ==> !ColonSuffix(e.assetId, assetId) && !ColonSuffix(assetId, e.assetId)
  }

  /** For one lost write and assets whose keys stand apart, as those of the shipped tokens
      do: no reservation passes as long as the balance's rebuilds are undisturbed. */
  lemma LostWriteStopsReservations(events: seq<Event>, lostAt: nat, from: nat, cmd: Command)
    requires Legal(events) && StandsApart(events, cmd.assetId)
    requires LosesOnly(events, lostAt, cmd.orderId, cmd.assetId)
    requires NoStrays(Run(events).db.entries, cmd.orderId, cmd.assetId)
    requires from <= |events| && LockKey(cmd.orderId, cmd.assetId) in At(events, from).db.paused
    requires forall k | from <= k < |events| :: !events[k].Restart?
    requires forall k | from <= k < |events| && IsRebuildOf(events[k], cmd.orderId, cmd.assetId) ::
      ReadsUndisturbed(events, k, lostAt)
    ensures !Admitted(Run(events).db, ReserveLock, cmd)
  {
    hide Legal, Run, At, LockKey, Admitted, LosesOnly, NoStrays, Undisturbed, Lost, ColonSuffix;
    forall k | from <= k < |events| && IsRebuildUnder(events[k], LockKey(cmd.orderId, cmd.assetId))
      ensures FindsLoss(events, k, cmd.orderId, cmd.assetId)
    {
      var e := events[k];
      assert e in events;
      LockKeysEqualExactly(e.orderId, e.assetId, cmd.orderId, cmd.assetId);
      LostWriteIsLost(events, lostAt, e.rowAt, cmd.orderId, cmd.assetId);
    }
    LossesStopReservations(events, from, cmd);
  }

  lemma NoStraysBefore(events: seq<Event>, n: nat, orderId: string, assetId: string)
    requires Legal(events) && n <= |events| && NoStrays(Run(events).db.entries, orderId, assetId)
    ensures NoStrays(At(events, n).db.entries, orderId, assetId)
  {
    hide Legal, Run, IsFor;
    EntriesOnlyGrow(events, n, |events|);
    assert events[..|events|] == events;
    assert forall e <- At(events, n).db.entries :: e in Run(events).db.entries;
  }
}
