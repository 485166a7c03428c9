/** Runs that show how the ledger and its rebuild can part. Each is written for any
    order, asset, users and amount. */
module LedgerCases {
  import opened BalanceLedger
  import opened LedgerBooks
  import opened LedgerFees
  import opened LedgerOrderScope
  import opened LedgerPauses
  import opened LedgerRebuild
  import opened LedgerRuns
  import opened LockKeys
  import opened Outcomes
  import opened Text

  // ---- building runs ----

  function Cmd(orderId: string, assetId: string, userId: string, amount: real, key: string,
               reversalOf: string): Command {
    Command(orderId, "", "", userId, assetId, Some(amount), key, "", "", reversalOf)
  }

  /** A mutation with nothing in between its steps. */
  function Whole(kind: EntryType, cmd: Command, id: string, now: int): seq<Event> {
    [Start(kind, cmd), SaveEntry(cmd.orderId, cmd.assetId, id, now), SaveBalance(cmd.orderId, cmd.assetId)]
  }

  function EntryFor(kind: EntryType, cmd: Command, id: string, now: int): Entry
    requires Resolved(cmd) && cmd.amount.Some?
  {
    NewEntry(kind, cmd, cmd.amount.value,
      ResolveLedgerOrderScope(cmd.orderId, cmd.userOrderId, cmd.accountLabel).value, id, now)
  }

  lemma RunMore(events: seq<Event>, e: Event)
    ensures Run(events + [e]) == Step(Run(events), RowRead(events, e), e)
    ensures Legal(events + [e]) <==> Legal(events) && Allowed(Run(events), e) && ReadsAreReal(events, e)
  {
    hide Step, Allowed, ReadsAreReal, RowRead;
    var es := events + [e];
    assert es[..|es| - 1] == events && es[|es| - 1] == e;
  }

  lemma AtMore(events: seq<Event>, more: seq<Event>, n: nat)
    requires n <= |events|
    ensures At(events + more, n) == At(events, n)
  {
    hide Run;
    assert (events + more)[..n] == events[..n];
  }

  lemma LosslessMore(events: seq<Event>, e: Event, orderId: string, assetId: string)
    requires Lossless(events, |events|, orderId, assetId) && !Loses(Run(events), e, orderId, assetId)
    ensures Lossless(events + [e], |events| + 1, orderId, assetId)
  {
    hide Run, Loses;
    forall k | 0 <= k < |events| + 1 ensures !LosesAt(events + [e], k, orderId, assetId) {
      AtMore(events, [e], k);
      if k < |events| {
        assert !LosesAt(events, k, orderId, assetId);
      } else {
        assert events[..|events|] == events;
      }
    }
  }

  lemma StartStep(events: seq<Event>, kind: EntryType, cmd: Command)
    requires Legal(events) && (cmd.orderId, cmd.assetId) !in Run(events).inFlight && Admitted(Run(events).db, kind, cmd)
    ensures var (w, es) := (Run(events), events + [Start(kind, cmd)]);
      && Legal(es) && Run(es) == w.(inFlight := w.inFlight[(cmd.orderId, cmd.assetId) := NewInFlight(w.db, kind, cmd)])
    ensures forall o, a :: !Loses(Run(events), Start(kind, cmd), o, a)
  {
    hide Legal, Run, Admitted, NewInFlight, ToBe;
    RunMore(events, Start(kind, cmd));
  }

  lemma AdmittedMeans(s: State, kind: EntryType, cmd: Command)
    requires Admitted(s, kind, cmd)
    ensures Resolved(cmd) && cmd.amount.Some?
  {
    hide ResolveLedgerOrderScope, FindByKey, FreshBalance;
  }

  /** The steps up to the saved entry. */
  lemma SaveStep(events: seq<Event>, kind: EntryType, cmd: Command, id: string, now: int)
    requires Legal(events) && (cmd.orderId, cmd.assetId) !in Run(events).inFlight && Admitted(Run(events).db, kind, cmd)
    requires FreshId(Run(events), id) && id != cmd.reversalOf
    ensures var (w, es) := (Run(events), events + [Start(kind, cmd)] + [SaveEntry(cmd.orderId, cmd.assetId, id, now)]);
      var e := EntryFor(kind, cmd, id, now);
      && Legal(es)
      && Run(es) == World(w.db.(entries := w.db.entries + [e]),
                          w.inFlight[(cmd.orderId, cmd.assetId) := NewInFlight(w.db, kind, cmd).(entry := Some(e))])
    ensures var started := events + [Start(kind, cmd)];
      forall o, a :: !Loses(Run(started), SaveEntry(cmd.orderId, cmd.assetId, id, now), o, a)
  {
    hide Legal, Run, Refusal, ResolveLedgerOrderScope, FindByKey, FreshBalance, KindOf, ToBe, NewEntry;
    var (w, started, save) := (Run(events), events + [Start(kind, cmd)], SaveEntry(cmd.orderId, cmd.assetId, id, now));
    AdmittedMeans(w.db, kind, cmd);
    StartStep(events, kind, cmd);
    RunMore(started, save);
    var key := (cmd.orderId, cmd.assetId);
    var m := NewInFlight(w.db, kind, cmd);
    assert w.inFlight[key := m][key := m.(entry := Some(EntryFor(kind, cmd, id, now)))]
        == w.inFlight[key := m.(entry := Some(EntryFor(kind, cmd, id, now)))];
  }

  lemma WholeIs(events: seq<Event>, kind: EntryType, cmd: Command, id: string, now: int)
    ensures events + Whole(kind, cmd, id, now)
         == events + [Start(kind, cmd)] + [SaveEntry(cmd.orderId, cmd.assetId, id, now)]
            + [SaveBalance(cmd.orderId, cmd.assetId)]
  {
  }

  /** What is written after the entry is what the posting rule gives. */
  lemma WritesNext(s: State, kind: EntryType, cmd: Command, id: string, now: int)
    requires Admitted(s, kind, cmd)
    ensures Resolved(cmd) && cmd.amount.Some?
    ensures var e := EntryFor(kind, cmd, id, now);
      ToWrite(NewInFlight(s, kind, cmd).(entry := Some(e))) == NextBalance(s, e, cmd.orderId)
  {
    hide Refusal, ResolveLedgerOrderScope, FindByKey, FreshBalance, KindOf, NewEntry, Post;
    AdmittedMeans(s, kind, cmd);
    var e, m := EntryFor(kind, cmd, id, now), NewInFlight(s, kind, cmd);
    EntryForFields(kind, cmd, id, now);
    PostIgnores(m.read.books, e.kind, e.amount, m.reversed, KindOf(s.entries, e.reversalOf));
  }

  lemma SaveBalanceStep(events: seq<Event>, key: (string, string))
    requires Legal(events) && key in Run(events).inFlight && Run(events).inFlight[key].entry.Some?
    ensures var (w, es) := (Run(events), events + [SaveBalance(key.0, key.1)]);
      Legal(es) &&
        Run(es) == World(w.db.(balances := w.db.balances[key := ToWrite(w.inFlight[key])]), w.inFlight - {key})
    ensures forall o, a :: !Loses(Run(events), SaveBalance(key.0, key.1), o, a)
  {
    hide Legal, Run, ToWrite, ToBe;
    RunMore(events, SaveBalance(key.0, key.1));
  }

  /** A whole mutation, run after `events`, adds its entry and writes its balance. */
  lemma WholeRuns(events: seq<Event>, kind: EntryType, cmd: Command, id: string, now: int)
    requires Legal(events) && (cmd.orderId, cmd.assetId) !in Run(events).inFlight && Admitted(Run(events).db, kind, cmd)
    requires FreshId(Run(events), id) && id != cmd.reversalOf
    ensures Resolved(cmd) && cmd.amount.Some?
    ensures var (w, es) := (Run(events), events + Whole(kind, cmd, id, now));
      var e := EntryFor(kind, cmd, id, now);
      && Legal(es)
      && Run(es).db.entries == w.db.entries + [e] && Run(es).db.paused == w.db.paused && Run(es).inFlight == w.inFlight
      && Run(es).db.balances == w.db.balances[(cmd.orderId, cmd.assetId) := NextBalance(w.db, e, cmd.orderId)]
  {
    hide Legal, Run, Admitted, Resolved, EntryFor, NewInFlight, ToWrite, NextBalance, FreshId;
    AdmittedMeans(Run(events).db, kind, cmd);
    SaveStep(events, kind, cmd, id, now);
    SaveBalanceStep(events + [Start(kind, cmd)] + [SaveEntry(cmd.orderId, cmd.assetId, id, now)],
      (cmd.orderId, cmd.assetId));
    WholeIs(events, kind, cmd, id, now);
    WritesNext(Run(events).db, kind, cmd, id, now);
    var m := NewInFlight(Run(events).db, kind, cmd).(entry := Some(EntryFor(kind, cmd, id, now)));
    assert Run(events).inFlight[(cmd.orderId, cmd.assetId) := m] - {(cmd.orderId, cmd.assetId)} == Run(events).inFlight;
  }

  /** It loses nothing anywhere. */
  lemma WholeLosesNothing(events: seq<Event>, kind: EntryType, cmd: Command, id: string, now: int, orderId: string,
                          assetId: string)
    requires Legal(events) && (cmd.orderId, cmd.assetId) !in Run(events).inFlight && Admitted(Run(events).db, kind, cmd)
    requires FreshId(Run(events), id) && id != cmd.reversalOf
    requires Lossless(events, |events|, orderId, assetId)
    ensures var es := events + Whole(kind, cmd, id, now); Lossless(es, |es|, orderId, assetId)
  {
    hide Legal, Run, Admitted, NewInFlight, EntryFor, Lossless, FreshId, Loses;
    AdmittedMeans(Run(events).db, kind, cmd);
    var started := events + [Start(kind, cmd)];
    var saved := started + [SaveEntry(cmd.orderId, cmd.assetId, id, now)];
    StartStep(events, kind, cmd);
    LosslessMore(events, Start(kind, cmd), orderId, assetId);
    SaveStep(events, kind, cmd, id, now);
    LosslessMore(started, SaveEntry(cmd.orderId, cmd.assetId, id, now), orderId, assetId);
    SaveBalanceStep(saved, (cmd.orderId, cmd.assetId));
    LosslessMore(saved, SaveBalance(cmd.orderId, cmd.assetId), orderId, assetId);
    WholeIs(events, kind, cmd, id, now);
  }

  lemma EntryForFields(kind: EntryType, cmd: Command, id: string, now: int)
    requires Resolved(cmd) && cmd.amount.Some?
    ensures var e := EntryFor(kind, cmd, id, now);
      && e.entryId == id && e.createdAt == now && e.key == cmd.key && e.kind == kind && e.userId == cmd.userId
      && e.amount == SignedAmount(kind, cmd.amount.value) && e.reversalOf == cmd.reversalOf && e.assetId == cmd.assetId
      && e.scope.ledgerOrderId == Trim(cmd.orderId) && e.content.orderId == cmd.orderId
  {
    hide Trim, ResolveLedgerOrderScope;
    ResolvedId(cmd);
  }

  // ---- one deposit ----

  predicate Usable(orderId: string) { Trimmed(orderId) && orderId != "" }

  function DepositEntry(cmd: Command, id: string, now: int): Entry
    requires Resolved(cmd) && cmd.amount.Some?
  {
    EntryFor(DepositCredit, cmd, id, now)
  }

  lemma UsableIsResolved(cmd: Command)
    requires Usable(cmd.orderId)
    ensures Resolved(cmd) && Trim(cmd.orderId) == cmd.orderId
  {
    hide ResolveTrimmed;
  }

  function DepositBooks(x: real): Books { Books(Funds(x, 0.0, 0.0), x, 0.0, 0.0) }

  predicate IsDepositFor(e: Entry, cmd: Command) {
    && e.kind == DepositCredit && cmd.amount == Some(e.amount) && IsFor(e, Stored, cmd.orderId, cmd.assetId)
    && InScope([e], cmd.orderId, cmd.assetId) == [e]
  }

  lemma DepositFacts(cmd: Command, id: string, now: int)
    requires Usable(cmd.orderId) && cmd.amount.Some?
    ensures Resolved(cmd)
    ensures var e := DepositEntry(cmd, id, now);
      && InScope([e], cmd.orderId, cmd.assetId) == [e] && IsSortOf([e], [e])
      && NoStrays([e], cmd.orderId, cmd.assetId)
      && Replay([e], [e]) == DepositBooks(cmd.amount.value)
      && FirstUser([e]) == cmd.userId && e.createdAt == now && e.entryId == id && e.key == cmd.key &&
        e.reversalOf == cmd.reversalOf
      && IsDepositFor(e, cmd)
  {
    hide Trimmed, ResolveLedgerOrderScope, KindOf, Trim, Replay, Chosen;
    UsableIsResolved(cmd);
    EntryForFields(DepositCredit, cmd, id, now);
    var e := DepositEntry(cmd, id, now);
    ReplayOfOne(e);
    ChosenOfOne(e, cmd.orderId, cmd.assetId);
  }

  lemma ReplayOfOne(e: Entry)
    ensures Replay([e], [e]) == Post(EMPTY_BOOKS, e.kind, e.amount, KindOf([e], e.reversalOf))
  {
    hide Post, KindOf;
    assert [e][..0] == [];
  }

  lemma ChosenOfOne(e: Entry, orderId: string, assetId: string)
    requires e.scope.ledgerOrderId == orderId && e.assetId == assetId
    ensures InScope([e], orderId, assetId) == [e]
  {
    ChosenAppend([], e, Stored, orderId, assetId);
    assert [] + [e] == [e];
  }

  lemma EmptyRun()
    ensures Run([]) == START && Legal([]) && Valid(START.db)
    ensures forall o, a :: Lossless([], 0, o, a)
    ensures forall id: string :: FreshId(START, id) <==> id != ""
  {
  }

  /** From an empty ledger up to the saved entry of a deposit. */
  lemma FirstDepositSaved(cmd: Command, id: string, now: int)
    requires Usable(cmd.orderId) && cmd.amount.Some? && cmd.amount.value > 0.0 && id != "" && id != cmd.reversalOf
    ensures var es := [Start(DepositCredit, cmd), SaveEntry(cmd.orderId, cmd.assetId, id, now)];
      && Resolved(cmd) && Legal(es) && Lossless(es, 2, cmd.orderId, cmd.assetId)
      && Admitted(EMPTY, DepositCredit, cmd)
      && var e := DepositEntry(cmd, id, now);
         Run(es) == World(EMPTY.(entries := [e]),
           map[(cmd.orderId, cmd.assetId) := NewInFlight(EMPTY, DepositCredit, cmd).(entry := Some(e))])
  {
    hide Legal, Run, Admitted, ResolveLedgerOrderScope, Trimmed, Lossless, Loses, Trim, NewInFlight, FreshId,
      EntryFor, Valid;
    EmptyRun();
    UsableIsResolved(cmd);
    DepositInState(EMPTY, cmd, id, now);
    var (start, save) := (Start(DepositCredit, cmd), SaveEntry(cmd.orderId, cmd.assetId, id, now));
    StartStep([], DepositCredit, cmd);
    SaveStep([], DepositCredit, cmd, id, now);
    LosslessMore([], start, cmd.orderId, cmd.assetId);
    LosslessMore([] + [start], save, cmd.orderId, cmd.assetId);
    assert [] + [start] + [save] == [start, save];
  }

  // ---- a rebuild between the two saves of a sound deposit ----

  /** It pauses reservations although nothing was lost and nothing is wrong. */
  lemma RebuildBetweenSavesMismatches(cmd: Command, id: string, now: int)
    requires Usable(cmd.orderId) && cmd.amount.Some? && cmd.amount.value > 0.0 && id != "" && id != cmd.reversalOf
    ensures Resolved(cmd)
    ensures var (o, a, e) := (cmd.orderId, cmd.assetId, DepositEntry(cmd, id, now));
      var es := [Start(DepositCredit, cmd), SaveEntry(o, a, id, now), Rebuild(o, a, 2, 2, [e])];
      Legal(es) && Sound(es, 2, o, a) && LockKey(o, a) in Run(es).db.paused
  {
    hide Legal, Run, Admitted, ResolveLedgerOrderScope, Trimmed, Lossless, NewInFlight, EntryFor, NoStrays, IsSortOf,
      InScope, Replay, FreshBalance, DepositEntry, LockKey, Trim;
    var (o, a) := (cmd.orderId, cmd.assetId);
    FirstDepositSaved(cmd, id, now);
    DepositFacts(cmd, id, now);
    UsableIsResolved(cmd);
    var e := DepositEntry(cmd, id, now);
    var (es, look) := ([Start(DepositCredit, cmd), SaveEntry(o, a, id, now)], Rebuild(o, a, 2, 2, [e]));
    assert es[..2] == es;
    NewBalanceIsEmpty(Run(es).db, o, a);
    RunMore(es, look);
    assert es + [look] == [Start(DepositCredit, cmd), SaveEntry(o, a, id, now), look];
    AtMore(es, [look], 2);
    LosslessPrefix(es, look, o, a);
  }

  lemma NewBalanceIsEmpty(s: State, orderId: string, assetId: string)
    requires (orderId, assetId) !in s.balances
    ensures BalanceOf(s, orderId, assetId).books == EMPTY_BOOKS && BalanceOf(s, orderId, assetId).userId == ""
  {
    hide ResolveLedgerOrderScope;
  }

  lemma LosslessPrefix(events: seq<Event>, e: Event, orderId: string, assetId: string)
    requires Lossless(events, |events|, orderId, assetId)
    ensures Lossless(events + [e], |events|, orderId, assetId)
  {
    hide Run, Loses;
    forall k | 0 <= k < |events| ensures !LosesAt(events + [e], k, orderId, assetId) {
      AtMore(events, [e], k);
      assert !LosesAt(events, k, orderId, assetId);
    }
  }

  // ---- a lost write ----

  function LostDeposit(cmd: Command, id: string, now: int): seq<Event> {
    [Start(DepositCredit, cmd), SaveEntry(cmd.orderId, cmd.assetId, id, now)] + [Fail(cmd.orderId, cmd.assetId)]
  }

  lemma LostDepositRuns(cmd: Command, id: string, now: int)
    requires Usable(cmd.orderId) && cmd.amount.Some? && cmd.amount.value > 0.0 && id != "" && id != cmd.reversalOf
    ensures Resolved(cmd)
    ensures var es := LostDeposit(cmd, id, now);
      && Legal(es) && Run(es) == World(EMPTY.(entries := [DepositEntry(cmd, id, now)]), map[])
      && Lossless(es, 2, cmd.orderId, cmd.assetId) && LosesWrite(At(es, 2), es[2], cmd.orderId, cmd.assetId)
  {
    hide Legal, Run, Admitted, ResolveLedgerOrderScope, Trimmed, Lossless, EntryFor, FreshBalance, DepositEntry, Trim,
      Refusal, KindOf, Saves;
    var (o, a) := (cmd.orderId, cmd.assetId);
    FirstDepositSaved(cmd, id, now);
    UsableIsResolved(cmd);
    var es := [Start(DepositCredit, cmd), SaveEntry(o, a, id, now)];
    RunMore(es, Fail(o, a));
    assert (es + [Fail(o, a)])[..2] == es;
    LosslessPrefix(es, Fail(o, a), o, a);
    var saved := NewInFlight(EMPTY, DepositCredit, cmd).(entry := Some(DepositEntry(cmd, id, now)));
    assert map[(o, a) := saved] - {(o, a)} == map[];
  }

  lemma LosesOnlyMore(events: seq<Event>, lostAt: nat, e: Event, orderId: string, assetId: string)
    requires LosesOnly(events, lostAt, orderId, assetId) && !Loses(Run(events), e, orderId, assetId)
    ensures LosesOnly(events + [e], lostAt, orderId, assetId)
  {
    hide Run, Loses, LosesWrite;
    var es := events + [e];
    AtMore(events, [e], lostAt);
    forall k | 0 <= k < |es| && k != lostAt ensures !LosesAt(es, k, orderId, assetId) {
      AtMore(events, [e], k);
      if k < |events| { assert !LosesAt(events, k, orderId, assetId); } else { assert events[..|events|] == events; }
    }
  }

  lemma LostDepositLosesOnly(cmd: Command, id: string, now: int)
    requires Usable(cmd.orderId) && cmd.amount.Some? && cmd.amount.value > 0.0 && id != "" && id != cmd.reversalOf
    ensures LosesOnly(LostDeposit(cmd, id, now), 2, cmd.orderId, cmd.assetId)
  {
    hide Run, Legal, Loses, LosesWrite, Trimmed, Resolved;
    LostDepositRuns(cmd, id, now);
    var es := LostDeposit(cmd, id, now);
    assert forall k | 0 <= k < 2 :: !LosesAt(es, k, cmd.orderId, cmd.assetId);
  }

  /** A lost deposit and a rebuild that looks at once: all that the statements about lost
      writes ask for is met, and reservations are paused. */
  lemma LostDepositIsFound(cmd: Command, id: string, now: int)
    requires Usable(cmd.orderId) && cmd.amount.Some? && cmd.amount.value > 0.0 && id != "" && id != cmd.reversalOf
    ensures Resolved(cmd)
    ensures var (o, a, e) := (cmd.orderId, cmd.assetId, DepositEntry(cmd, id, now));
      var es := LostDeposit(cmd, id, now) + [Rebuild(o, a, 3, 3, [e])];
      && Legal(es) && LosesOnly(es, 2, o, a) && SortedAt(es, 3, o, a, [e]) && Undisturbed(es, 3, 3, o, a)
      && NoStrays(At(es, 3).db.entries, o, a) && NoStrays(Run(es).db.entries, o, a) &&
        LockKey(o, a) in At(es, 4).db.paused
  {
    hide Legal, Run, Trimmed, LosesOnly, NoStrays, IsSortOf, InScope, DepositEntry, LockKey, Trim, RebuildMatches,
      Lossless, LosesWrite, Resolved;
    var (o, a) := (cmd.orderId, cmd.assetId);
    LostDepositRuns(cmd, id, now);
    LostDepositLosesOnly(cmd, id, now);
    DepositFacts(cmd, id, now);
    UsableIsResolved(cmd);
    var (es, look) := (LostDeposit(cmd, id, now), Rebuild(o, a, 3, 3, [DepositEntry(cmd, id, now)]));
    assert es[..3] == es && (es + [look])[..4] == es + [look];
    AtMore(es, [look], 3);
    RunMore(es, look);
    LosesOnlyMore(es, 2, look, o, a);
    DepositIsMissed(Run(es).db, cmd, id, now);
  }

  lemma DepositIsMissed(s: State, cmd: Command, id: string, now: int)
    requires Usable(cmd.orderId) && cmd.amount.Some? && cmd.amount.value > 0.0 && Resolved(cmd)
    requires (cmd.orderId, cmd.assetId) !in s.balances
    ensures !RebuildMatches(BalanceOf(s, cmd.orderId, cmd.assetId), [DepositEntry(cmd, id, now)])
  {
    hide Trimmed, Resolved, Replay, FreshBalance, DepositEntry, FirstUser, InScope, IsSortOf, NoStrays;
    DepositFacts(cmd, id, now);
    NewBalanceIsEmpty(s, cmd.orderId, cmd.assetId);
  }

  // ---- a rebuild whose reads are torn ----

  /** The first deposit loses its write and the balance is paused. A rebuild reads the
      entries, the same amount is deposited again, and the rebuild reads the row. */
  function TornRebuild(cmd: Command, id: string, now: int, cmd2: Command, id2: string, now2: int): seq<Event>
    requires Resolved(cmd) && cmd.amount.Some?
  {
    LostDeposit(cmd, id, now) + [Pause(cmd.orderId, cmd.assetId)] + Whole(DepositCredit, cmd2, id2, now2)
    + [Rebuild(cmd.orderId, cmd.assetId, 4, 7, [DepositEntry(cmd, id, now)])]
  }

  lemma PausedLostDeposit(cmd: Command, id: string, now: int)
    requires Usable(cmd.orderId) && cmd.amount.Some? && cmd.amount.value > 0.0 && id != "" && id != cmd.reversalOf
    ensures Resolved(cmd)
    ensures var es := LostDeposit(cmd, id, now) + [Pause(cmd.orderId, cmd.assetId)];
      && |es| == 4 && Legal(es)
      && Run(es) == World(State([DepositEntry(cmd, id, now)], map[], {LockKey(cmd.orderId, cmd.assetId)}), map[])
  {
    hide Legal, Run, Trimmed, DepositEntry, LockKey, LosesWrite, Lossless, Resolved;
    LostDepositRuns(cmd, id, now);
    RunMore(LostDeposit(cmd, id, now), Pause(cmd.orderId, cmd.assetId));
  }

  lemma SecondDeposit(s: State, cmd: Command, id: string, now: int, key: (string, string))
    requires cmd.amount.Some? && Resolved(cmd) && key == (cmd.orderId, cmd.assetId) && key !in s.balances
    ensures NextBalance(s, DepositEntry(cmd, id, now), cmd.orderId).books == DepositBooks(cmd.amount.value)
    ensures NextBalance(s, DepositEntry(cmd, id, now), cmd.orderId).userId == cmd.userId
    ensures NextBalance(s, DepositEntry(cmd, id, now), cmd.orderId).total == cmd.amount.value
  {
    hide Trim, ResolveLedgerOrderScope, FreshBalance, KindOf;
    NewBalanceIsEmpty(s, cmd.orderId, cmd.assetId);
    EntryForFields(DepositCredit, cmd, id, now);
  }

  lemma TornRebuildRuns(cmd: Command, id: string, now: int, cmd2: Command, id2: string, now2: int)
    requires Usable(cmd.orderId) && cmd.amount.Some? && cmd.amount.value > 0.0 && cmd.reversalOf == ""
    requires cmd2 == cmd.(key := cmd2.key) && id != "" && id2 != "" && id != id2 && cmd2.key != cmd.key
    ensures Resolved(cmd) && Resolved(cmd2)
    ensures var (o, a) := (cmd.orderId, cmd.assetId);
      var es := LostDeposit(cmd, id, now) + [Pause(o, a)] + Whole(DepositCredit, cmd2, id2, now2);
      && |es| == 7 && Legal(es) && Run(es[..4]).db.entries == [DepositEntry(cmd, id, now)]
      && Run(es).db.entries == [DepositEntry(cmd, id, now)] + [DepositEntry(cmd2, id2, now2)]
      && Run(es).db.paused == {LockKey(o, a)} && Run(es).inFlight == map[] && Row(Run(es), o, a).userId == cmd.userId
      && Row(Run(es), o, a).books == DepositBooks(cmd.amount.value) && Row(Run(es), o, a).total == cmd.amount.value
  {
    hide Legal, Run, Admitted, Trimmed, DepositEntry, LockKey, Trim, NextBalance, Resolved, EntryFor, LostDeposit,
      InScope, Replay, IsSortOf, NoStrays, FirstUser, FreshBalance;
    var (o, a) := (cmd.orderId, cmd.assetId);
    PausedLostDeposit(cmd, id, now);
    DepositFacts(cmd, id, now);
    UsableIsResolved(cmd2);
    var paused := LostDeposit(cmd, id, now) + [Pause(o, a)];
    DepositInState(Run(paused).db, cmd2, id2, now2);
    WholeRuns(paused, DepositCredit, cmd2, id2, now2);
    SecondDeposit(Run(paused).db, cmd2, id2, now2, (o, a));
    DepositEntryIs(cmd2, id2, now2);
    assert (paused + Whole(DepositCredit, cmd2, id2, now2))[..4] == paused;
  }

  /** That rebuild reports a match and lifts the pause, although the lost deposit is
      still missing from the balance. */
  lemma TornRebuildLiftsPause(cmd: Command, id: string, now: int, key2: string, id2: string, now2: int)
    requires Usable(cmd.orderId) && cmd.amount.Some? && cmd.amount.value > 0.0 && cmd.reversalOf == ""
    requires id != "" && id2 != "" && id != id2 && key2 != cmd.key
    ensures Resolved(cmd)
    ensures var (o, a, es) := (cmd.orderId, cmd.assetId, TornRebuild(cmd, id, now, cmd.(key := key2), id2, now2));
      && |es| == 8 && Legal(es) && LockKey(o, a) in At(es, 7).db.paused && LockKey(o, a) !in Run(es).db.paused
      && LooksSettled(es, 7, o, a) && Gap(Run(es), o, a).funds == Funds(cmd.amount.value, 0.0, 0.0)
  {
    hide Legal, Run, Trimmed, DepositEntry, LockKey, Trim, InScope, IsSortOf, Replay, LooksSettled,
      NoStrays, Resolved, Gap, FirstUser, LostDeposit, BalanceOf, IsFor;
    var (o, a, cmd2) := (cmd.orderId, cmd.assetId, cmd.(key := key2));
    TornRebuildRuns(cmd, id, now, cmd2, id2, now2);
    DepositFacts(cmd, id, now);
    DepositFacts(cmd2, id2, now2);
    UsableIsResolved(cmd);
    var e := DepositEntry(cmd, id, now);
    var twice := LostDeposit(cmd, id, now) + [Pause(o, a)] + Whole(DepositCredit, cmd2, id2, now2);
    var look := Rebuild(o, a, 4, 7, [e]);
    assert twice[..7] == twice;
    NoRestarts(cmd, id, now, cmd2, id2, now2);
    RunMore(twice, look);
    assert (twice + [look])[..7] == twice;
    MatchLooksSettled(twice + [look], 7);
    SamePausedRow(Run(twice), Run(twice + [look]), o, a);
    TwoDepositsGap(Run(twice + [look]), cmd, e, DepositEntry(cmd2, id2, now2));
  }

  lemma SamePausedRow(w: World, w': World, orderId: string, assetId: string)
    requires w'.db.balances == w.db.balances
    ensures Row(w', orderId, assetId) == Row(w, orderId, assetId)
  {
    hide FreshBalance;
  }

  lemma NoRestarts(cmd: Command, id: string, now: int, cmd2: Command, id2: string, now2: int)
    ensures var paused := LostDeposit(cmd, id, now) + [Pause(cmd.orderId, cmd.assetId)];
      var es := paused + Whole(DepositCredit, cmd2, id2, now2);
      Uninterrupted(es, 4) && Uninterrupted(es, 7)
  {
  }

  lemma DepositEntryIs(cmd: Command, id: string, now: int)
    requires Resolved(cmd) && cmd.amount.Some?
    ensures DepositEntry(cmd, id, now) == EntryFor(DepositCredit, cmd, id, now)
  {
  }

  lemma TwoDepositsGap(w: World, cmd: Command, e: Entry, e2: Entry)
    requires cmd.amount.Some? && w.db.entries == [e] + [e2] && IsDepositFor(e, cmd) && IsDepositFor(e2, cmd)
    requires Row(w, cmd.orderId, cmd.assetId).books == DepositBooks(cmd.amount.value)
    ensures Gap(w, cmd.orderId, cmd.assetId).funds == Funds(cmd.amount.value, 0.0, 0.0)
  {
    hide KindOf, Row, Sum, Chosen;
    ChosenAppend([e], e2, Stored, cmd.orderId, cmd.assetId);
    SumAppend([e], e2, w.db.entries);
    SumAppend([], e, w.db.entries);
    SumOfNothing(w.db.entries);
    assert [] + [e] == [e];
  }

  // ---- a new row over a written one ----

  lemma FirstDepositWhole(cmd: Command, id: string, now: int)
    requires Usable(cmd.orderId) && cmd.amount.Some? && cmd.amount.value > 0.0 && cmd.reversalOf == "" && id != ""
    ensures Resolved(cmd)
    ensures var (o, a, es) := (cmd.orderId, cmd.assetId, Whole(DepositCredit, cmd, id, now));
      && |es| == 3 && Legal(es) && Lossless(es, 3, o, a)
      && Run(es).db.entries == [DepositEntry(cmd, id, now)] && Run(es).db.paused == {} && Run(es).inFlight == map[]
      && Row(Run(es), o, a).books == DepositBooks(cmd.amount.value)
      && Row(Run(es), o, a).total == cmd.amount.value && Row(Run(es), o, a).userId == cmd.userId
      && (forall key | key != (o, a) :: key !in Run(es).db.balances)
  {
    hide Legal, Run, Admitted, Trimmed, DepositEntry, Trim, NextBalance, Resolved, EntryFor, FreshBalance, Valid,
      FreshId, NewEntry, Lossless;
    var (o, a) := (cmd.orderId, cmd.assetId);
    EmptyRun();
    UsableIsResolved(cmd);
    DepositInState(EMPTY, cmd, id, now);
    WholeRuns([], DepositCredit, cmd, id, now);
    WholeLosesNothing([], DepositCredit, cmd, id, now, o, a);
    assert [] + Whole(DepositCredit, cmd, id, now) == Whole(DepositCredit, cmd, id, now);
    SecondDeposit(EMPTY, cmd, id, now, (o, a));
    DepositEntryIs(cmd, id, now);
  }

  /** A reader finds no row, a deposit is made, and the reader saves the new row: the
      balance is empty again and the deposit missing. */
  lemma NewRowOverwritesDeposit(cmd: Command, id: string, now: int)
    requires Usable(cmd.orderId) && cmd.amount.Some? && cmd.amount.value > 0.0 && cmd.reversalOf == "" && id != ""
    ensures var (o, a, es) := (cmd.orderId, cmd.assetId,
      Whole(DepositCredit, cmd, id, now) + [CreateRow(cmd.orderId, cmd.assetId, 0)]);
      && Legal(es) && Row(Run(es), o, a) == FreshBalance(o) && Loses(At(es, 3), es[3], o, a)
      && Lost(es, 4, o, a) == SumsOf(DepositBooks(cmd.amount.value))
  {
    hide Legal, Run, Trimmed, DepositEntry, Trim, Resolved, FreshBalance, Lost, Drops, Lossless;
    var (o, a) := (cmd.orderId, cmd.assetId);
    FirstDepositWhole(cmd, id, now);
    EmptyRun();
    UsableIsResolved(cmd);
    var (whole, create) := (Whole(DepositCredit, cmd, id, now), CreateRow(o, a, 0));
    assert whole[..0] == [] && (whole + [create])[..3] == whole;
    RunMore(whole, create);
    FreshIsEmpty(o);
    LosslessPrefix(whole, create, o, a);
    LosslessLosesNothing(whole + [create], 3, o, a);
    LostOneMore(whole + [create], 4, o, a);
  }

  lemma FreshIsEmpty(orderId: string)
    ensures FreshBalance(orderId).books == EMPTY_BOOKS && FreshBalance(orderId).userId == ""
    ensures FreshBalance(orderId).total == 0.0
  {
    hide ResolveLedgerOrderScope;
  }

  // ---- a retried gas debit ----

  lemma WholeSaves(events: seq<Event>, kind: EntryType, cmd: Command, id: string, now: int)
    requires Legal(events) && (cmd.orderId, cmd.assetId) !in Run(events).inFlight && Admitted(Run(events).db, kind, cmd)
    requires FreshId(Run(events), id) && id != cmd.reversalOf
    ensures var (es, n) := (events + Whole(kind, cmd, id, now), |events| + 1);
      && es[n] == SaveEntry(cmd.orderId, cmd.assetId, id, now) && Saves(At(es, n), es[n])
      && At(es, n).inFlight[(cmd.orderId, cmd.assetId)].kind == kind &&
        At(es, n).inFlight[(cmd.orderId, cmd.assetId)].cmd == cmd
  {
    hide Legal, Run, FreshId, ResolveLedgerOrderScope, Refusal, FindByKey, KindOf, FreshBalance;
    StartStep(events, kind, cmd);
    assert (events + Whole(kind, cmd, id, now))[..|events| + 1] == events + [Start(kind, cmd)];
  }

  /** The row after one more entry, by the funds it has. */
  lemma NextBooks(s: State, kind: EntryType, cmd: Command, id: string, now: int)
    requires Resolved(cmd) && cmd.amount.Some? && !kind.Reversal?
    ensures NextBalance(s, EntryFor(kind, cmd, id, now), cmd.orderId).books
         == Post(BalanceOf(s, cmd.orderId, cmd.assetId).books, kind, SignedAmount(kind, cmd.amount.value), None)
  {
    hide Trim, ResolveLedgerOrderScope, FreshBalance, KindOf;
    EntryForFields(kind, cmd, id, now);
    var e := EntryFor(kind, cmd, id, now);
    PostIgnores(BalanceOf(s, cmd.orderId, cmd.assetId).books, kind, e.amount, None, KindOf(s.entries, e.reversalOf));
  }

  lemma NewKeyIsNotFound(xs: seq<Entry>, key: string)
    requires forall e <- xs :: e.key != key
    ensures FindByKey(xs, key).None?
  {
    hide FindByKey;
    FoundByKey(xs, key);
  }

  /** One more mutation whose checks are those of its funds. */
  lemma AdmittedByFunds(s: State, kind: EntryType, cmd: Command)
    requires Usable(cmd.orderId) && cmd.amount.Some? && cmd.amount.value != 0.0
    requires (SignIsFree(kind) || cmd.amount.value > 0.0)
    requires forall e <- s.entries :: e.key != cmd.key
    requires !kind.LpAddSettle? && !kind.LpRemoveSettle? && LockKey(cmd.orderId, cmd.assetId) !in s.paused
    requires var funds := BalanceOf(s, cmd.orderId, cmd.assetId).books.funds;
      funds.Plus(Effect(kind, SignedAmount(kind, cmd.amount.value))).NonNegative()
    ensures Admitted(s, kind, cmd)
  {
    hide FindByKey, Trimmed, ResolveLedgerOrderScope, BalanceOf, LockKey;
    UsableIsResolved(cmd);
    NewKeyIsNotFound(s.entries, cmd.key);
  }

  function GasRun(orderId: string, assetId: string, userId: string, x: real, keys: (string, string, string),
                  ids: (string, string, string)): seq<Event> {
    Whole(DepositCredit, Cmd(orderId, assetId, userId, x, keys.0, ""), ids.0, 0)
    + Whole(ReserveLock, Cmd(orderId, assetId, userId, x, keys.1, ""), ids.1, 1)
    + Whole(GasDebit, Cmd(orderId, assetId, userId, x, keys.2, ""), ids.2, 2)
  }

  lemma LockedDepositRuns(orderId: string, assetId: string, userId: string, x: real, key1: string, id1: string,
                          key2: string, id2: string)
    requires Usable(orderId) && x > 0.0 && key1 != key2 && id1 != "" && id2 != "" && id1 != id2
    ensures var (c1, c2) := (Cmd(orderId, assetId, userId, x, key1, ""), Cmd(orderId, assetId, userId, x, key2, ""));
      var es := Whole(DepositCredit, c1, id1, 0) + Whole(ReserveLock, c2, id2, 1);
      && Resolved(c1) && Resolved(c2) && Legal(es) && Run(es).inFlight == map[] && Run(es).db.paused == {}
      && Run(es).db.entries == [DepositEntry(c1, id1, 0)] + [EntryFor(ReserveLock, c2, id2, 1)]
      && Row(Run(es), orderId, assetId).books == Books(Funds(0.0, x, 0.0), x, 0.0, 0.0)
  {
    hide Legal, Run, Admitted, Trimmed, DepositEntry, Trim, NextBalance, Resolved, EntryFor, FreshBalance, Lossless,
      InScope, IsSortOf, NoStrays, Replay, FirstUser, IsFor;
    var (c1, c2) := (Cmd(orderId, assetId, userId, x, key1, ""), Cmd(orderId, assetId, userId, x, key2, ""));
    var first := Whole(DepositCredit, c1, id1, 0);
    FirstDepositWhole(c1, id1, 0);
    DepositFacts(c1, id1, 0);
    UsableIsResolved(c2);
    AdmittedByFunds(Run(first).db, ReserveLock, c2);
    WholeRuns(first, ReserveLock, c2, id2, 1);
    NextBooks(Run(first).db, ReserveLock, c2, id2, 1);
  }

  /** Any amount can be deposited, locked and spent on gas; and sending the gas debit
      again is then refused as a conflict. */
  lemma RepeatedGasDebitConflicts(orderId: string, assetId: string, userId: string, x: real,
                                  keys: (string, string, string), ids: (string, string, string), id: string, now: int)
    requires Usable(orderId) && x > 0.0 && keys.0 != keys.1 && keys.0 != keys.2 && keys.1 != keys.2
    requires ids.0 != "" && ids.1 != "" && ids.2 != "" && ids.0 != ids.1 && ids.0 != ids.2 && ids.1 != ids.2
    ensures var es := GasRun(orderId, assetId, userId, x, keys, ids);
      && |es| == 9 && Legal(es) && Saves(At(es, 7), es[7])
      && Apply(Run(es).db, GasDebit, Cmd(orderId, assetId, userId, x, keys.2, ""), id, now)
         == (Run(es).db, Refused(IdempotencyConflict))
  {
    hide Legal, Run, At, Admitted, Trimmed, DepositEntry, Trim, Resolved, EntryFor, FreshBalance, Saves, SavedEntry,
      Apply, BalanceOf, InScope, IsSortOf, NoStrays, Replay, FirstUser, IsFor, NextBalance;
    var (c1, c2, c3) := (Cmd(orderId, assetId, userId, x, keys.0, ""), Cmd(orderId, assetId, userId, x, keys.1, ""),
      Cmd(orderId, assetId, userId, x, keys.2, ""));
    LockedDepositRuns(orderId, assetId, userId, x, keys.0, ids.0, keys.1, ids.1);
    var two := Whole(DepositCredit, c1, ids.0, 0) + Whole(ReserveLock, c2, ids.1, 1);
    DepositFacts(c1, ids.0, 0);
    EntryForFields(ReserveLock, c2, ids.1, 1);
    AdmittedByFunds(Run(two).db, GasDebit, c3);
    WholeRuns(two, GasDebit, c3, ids.2, 2);
    WholeSaves(two, GasDebit, c3, ids.2, 2);
    RetryAppliesOnce(two + Whole(GasDebit, c3, ids.2, 2), 7, id, now);
  }

  // ---- two users on one balance ----

  /** Two deposits by different users on one balance: nothing is lost and nothing in
      flight, and the rebuild reports a mismatch. */
  lemma TwoUsersMismatch(cmd: Command, id: string, now: int, cmd2: Command, id2: string, now2: int)
    requires Usable(cmd.orderId) && cmd.amount.Some? && cmd.amount.value > 0.0 && cmd.reversalOf == ""
    requires cmd2.reversalOf == ""
    requires cmd2.orderId == cmd.orderId && cmd2.assetId == cmd.assetId && cmd2.amount.Some? && cmd2.amount.value > 0.0
    requires cmd2.key != cmd.key && cmd2.userId != cmd.userId && id != "" && id2 != "" && id2 != id && now < now2
    ensures Resolved(cmd) && Resolved(cmd2)
    ensures var (o, a) := (cmd.orderId, cmd.assetId);
      var es := Whole(DepositCredit, cmd, id, now) + Whole(DepositCredit, cmd2, id2, now2);
      var sorted := [DepositEntry(cmd, id, now)] + [DepositEntry(cmd2, id2, now2)];
      && Legal(es) && Sound(es, 6, o, a) && Undisturbed(es, 6, 6, o, a) && SortedAt(es, 6, o, a, sorted)
      && !RebuildMatches(Row(Run(es), o, a), sorted)
  {
    hide Legal, Run, Admitted, Trimmed, DepositEntry, Trim, NextBalance, Resolved, EntryFor, FreshBalance, Lossless,
      Replay, RebuildMatches, ForeignRealized, MissesAreCleared, InScope, NoStrays, Row, Valid;
    FirstDepositWhole(cmd, id, now);
    DepositFacts(cmd, id, now);
    DepositFacts(cmd2, id2, now2);
    UsableIsResolved(cmd2);
    var (o, a, e, e2) := (cmd.orderId, cmd.assetId, DepositEntry(cmd, id, now), DepositEntry(cmd2, id2, now2));
    var first := Whole(DepositCredit, cmd, id, now);
    RunKeepsInv(first);
    InvMeans(Run(first));
    DepositInState(Run(first).db, cmd2, id2, now2);
    WholeRuns(first, DepositCredit, cmd2, id2, now2);
    WholeLosesNothing(first, DepositCredit, cmd2, id2, now2, o, a);
    DepositEntryIs(cmd2, id2, now2);
    var es := first + Whole(DepositCredit, cmd2, id2, now2);
    assert es[..6] == es;
    TwoInScope(e, e2, o, a);
    RebuildMatchesAtDistinctTimes(es, 6, 6, o, a, [e] + [e2]);
  }

  lemma TwoInScope(e: Entry, e2: Entry, orderId: string, assetId: string)
    requires InScope([e], orderId, assetId) == [e] && InScope([e2], orderId, assetId) == [e2]
    requires NoStrays([e], orderId, assetId) && NoStrays([e2], orderId, assetId)
    ensures InScope([e] + [e2], orderId, assetId) == [e] + [e2] && NoStrays([e] + [e2], orderId, assetId)
  {
    hide IsFor;
    ChosenJoined([e], [e2], orderId, assetId);
    assert e in [e] && e2 in [e2];
  }

  // ---- a reward undone on another order ----

  function ForeignRun(o1: string, o2: string, assetId: string, userId: string, x: real, keys: (string, string,
                      string), ids: (string, string, string)): seq<Event> {
    Whole(DepositCredit, Cmd(o2, assetId, userId, x, keys.0, ""), ids.0, 0)
    + Whole(RewardCredit, Cmd(o1, assetId, userId, x, keys.1, ""), ids.1, 1)
    + Whole(Reversal, Cmd(o2, assetId, userId, -x, keys.2, ids.1), ids.2, 2)
  }

  lemma RewardedRuns(o1: string, o2: string, assetId: string, userId: string, x: real, key1: string, id1: string,
                     key2: string, id2: string)
    requires Usable(o1) && Usable(o2) && o1 != o2 && x > 0.0 && key1 != key2 && id1 != "" && id2 != "" && id1 != id2
    ensures var (c1, c2) := (Cmd(o2, assetId, userId, x, key1, ""), Cmd(o1, assetId, userId, x, key2, ""));
      var es := Whole(DepositCredit, c1, id1, 0) + Whole(RewardCredit, c2, id2, 1);
      && Resolved(c1) && Resolved(c2) && Legal(es) && Run(es).inFlight == map[] && Run(es).db.paused == {} &&
        Lossless(es, 6, o2, assetId)
      && Run(es).db.entries == [DepositEntry(c1, id1, 0)] + [EntryFor(RewardCredit, c2, id2, 1)]
      && Row(Run(es), o2, assetId).books == DepositBooks(x)
  {
    hide Legal, Run, Admitted, Trimmed, DepositEntry, Trim, NextBalance, Resolved, EntryFor, FreshBalance, Lossless,
      InScope, IsSortOf, NoStrays, Replay, FirstUser, IsFor;
    var (c1, c2) := (Cmd(o2, assetId, userId, x, key1, ""), Cmd(o1, assetId, userId, x, key2, ""));
    var first := Whole(DepositCredit, c1, id1, 0);
    FirstDepositWhole(c1, id1, 0);
    DepositFacts(c1, id1, 0);
    UsableIsResolved(c2);
    NewBalanceIsEmpty(Run(first).db, o1, assetId);
    AdmittedByFunds(Run(first).db, RewardCredit, c2);
    WholeRuns(first, RewardCredit, c2, id2, 1);
    WholeLosesNothing(first, RewardCredit, c2, id2, 1, o2, assetId);
  }

  /** A reward on one order is reversed on another: nothing is lost, and every
      undisturbed rebuild of the other order reports a mismatch. */
  lemma ForeignReversalMismatches(o1: string, o2: string, assetId: string, userId: string, x: real,
                                  keys: (string, string, string), ids: (string, string, string))
    requires Usable(o1) && Usable(o2) && o1 != o2 && x > 0.0 && keys.0 != keys.1 && keys.0 != keys.2 && keys.1 != keys.2
    requires ids.0 != "" && ids.1 != "" && ids.2 != "" && ids.0 != ids.1 && ids.0 != ids.2 && ids.1 != ids.2
    ensures var es := ForeignRun(o1, o2, assetId, userId, x, keys, ids);
      && |es| == 9 && Legal(es) && Sound(es, 9, o2, assetId) && Undisturbed(es, 9, 9, o2, assetId)
      && Unseen(Run(es), o2, assetId) == Sums(NO_FUNDS, 0.0, -x)
    ensures forall sorted | SortedAt(ForeignRun(o1, o2, assetId, userId, x, keys, ids), 9, o2, assetId, sorted) ::
      !RebuildMatches(Row(Run(ForeignRun(o1, o2, assetId, userId, x, keys, ids)), o2, assetId), sorted)
  {
    hide Legal, Run, Admitted, Trimmed, DepositEntry, Trim, NextBalance, Resolved, EntryFor, FreshBalance, Lossless,
      InScope, IsSortOf, NoStrays, Replay, FirstUser, IsFor, RebuildMatches, ForeignRealized, Row, SortedAt;
    var (c1, c2, c3) := (Cmd(o2, assetId, userId, x, keys.0, ""), Cmd(o1, assetId, userId, x, keys.1, ""),
      Cmd(o2, assetId, userId, -x, keys.2, ids.1));
    RewardedRuns(o1, o2, assetId, userId, x, keys.0, ids.0, keys.1, ids.1);
    var two := Whole(DepositCredit, c1, ids.0, 0) + Whole(RewardCredit, c2, ids.1, 1);
    DepositFacts(c1, ids.0, 0);
    EntryForFields(RewardCredit, c2, ids.1, 1);
    UsableIsResolved(c3);
    RowIs(Run(two), o2, assetId);
    AdmittedByFunds(Run(two).db, Reversal, c3);
    WholeRuns(two, Reversal, c3, ids.2, 2);
    WholeLosesNothing(two, Reversal, c3, ids.2, 2, o2, assetId);
    var es := two + Whole(Reversal, c3, ids.2, 2);
    assert es[..9] == es;
    ForeignEntries(Run(es).db, o1, o2, c1, c2, c3, ids);
    forall sorted | SortedAt(es, 9, o2, assetId, sorted) ensures !RebuildMatches(Row(Run(es), o2, assetId), sorted) {
      ForeignReversalsBreakRebuild(es, 9, 9, o2, assetId, sorted);
    }
  }

  lemma RowIs(w: World, orderId: string, assetId: string)
    ensures Row(w, orderId, assetId) == BalanceOf(w.db, orderId, assetId)
  {
  }

  lemma ForeignEntries(s: State, o1: string, o2: string, c1: Command, c2: Command, c3: Command, ids: (string, string,
                       string))
    requires Usable(o1) && Usable(o2) && o1 != o2 && c1.amount.Some? && c2.amount.Some? && c3.amount.Some?
    requires c1.orderId == o2 && c2.orderId == o1 && c3.orderId == o2 && c1.assetId == c2.assetId == c3.assetId
    requires c1.reversalOf == "" && c2.reversalOf == "" && c3.reversalOf == ids.1 && ids.1 != "" && ids.1 != ids.0
    requires ids.1 != ids.2
    requires Resolved(c1) && Resolved(c2) && Resolved(c3)
    requires s.entries
          == [DepositEntry(c1, ids.0, 0)] + [EntryFor(RewardCredit, c2, ids.1, 1)] + [EntryFor(Reversal, c3, ids.2, 2)]
    ensures NoStrays(s.entries, o2, c1.assetId)
    ensures ForeignRealized(s, o2, c1.assetId, InScope(s.entries, o2, c1.assetId)) == c3.amount.value
  {
    hide Trimmed, Resolved, Trim, EntryFor, DepositEntry, ResolveLedgerOrderScope, InScope, ForeignRealized, NoStrays;
    UsableIsResolved(c1);
    UsableIsResolved(c2);
    UsableIsResolved(c3);
    DepositEntryIs(c1, ids.0, 0);
    EntryForFields(DepositCredit, c1, ids.0, 0);
    EntryForFields(RewardCredit, c2, ids.1, 1);
    EntryForFields(Reversal, c3, ids.2, 2);
    NoStraysIfTrimmed(s.entries, o2, c1.assetId);
    ForeignIn(s, DepositEntry(c1, ids.0, 0), EntryFor(RewardCredit, c2, ids.1, 1), EntryFor(Reversal, c3, ids.2, 2),
      o2, c1.assetId);
  }

  lemma NoStraysIfTrimmed(xs: seq<Entry>, orderId: string, assetId: string)
    requires forall e <- xs :: e.scope.ledgerOrderId == e.content.orderId
    ensures NoStrays(xs, orderId, assetId)
  {
  }

  lemma ForeignIn(s: State, d: Entry, r: Entry, v: Entry, orderId: string, assetId: string)
    requires s.entries == [d] + [r] + [v] && d.kind == DepositCredit && r.kind == RewardCredit && v.kind == Reversal
    requires IsFor(d, Stored, orderId, assetId) && !IsFor(r, Stored, orderId, assetId)
    requires IsFor(v, Stored, orderId, assetId)
    requires v.reversalOf == r.entryId != "" && d.entryId != r.entryId && v.entryId != r.entryId
    ensures ForeignRealized(s, orderId, assetId, InScope(s.entries, orderId, assetId)) == v.amount
  {
    hide IsFor, Chosen, ForeignRealized, KindOf, Foreign;
    assert r in s.entries;
    KindOfMember(s.entries, r);
    ChosenOfThree(d, r, v, orderId, assetId);
    IsForeign(s, r, orderId, assetId);
    ForeignOfTwo(s, d, v, orderId, assetId);
  }

  lemma ChosenOfThree(d: Entry, r: Entry, v: Entry, orderId: string, assetId: string)
    requires IsFor(d, Stored, orderId, assetId) && !IsFor(r, Stored, orderId, assetId)
    requires IsFor(v, Stored, orderId, assetId)
    ensures Chosen([d] + [r] + [v], Stored, orderId, assetId) == [d] + [v]
  {
    hide IsFor;
    ChosenAppend([], d, Stored, orderId, assetId);
    assert [] + [d] == [d];
    ChosenAppend([d], r, Stored, orderId, assetId);
    ChosenAppend([d] + [r], v, Stored, orderId, assetId);
  }

  lemma ForeignOfTwo(s: State, d: Entry, v: Entry, orderId: string, assetId: string)
    requires !d.kind.Reversal? && v.kind.Reversal? && Foreign(s, orderId, assetId, v.reversalOf)
    requires KindOf(s.entries, v.reversalOf) == Some(RewardCredit)
    ensures ForeignRealized(s, orderId, assetId, [d] + [v]) == v.amount
  {
    hide Foreign, KindOf;
    assert ([d] + [v])[..1] == [d] && [d][..0] == [];
    assert ForeignRealized(s, orderId, assetId, [d]) == 0.0;
  }

  lemma IsForeign(s: State, r: Entry, orderId: string, assetId: string)
    requires r in s.entries && !IsFor(r, Stored, orderId, assetId)
    ensures Foreign(s, orderId, assetId, r.entryId)
  {
  }

  // ---- an order id with white space around it ----

  /** One deposit under such an id: neither the rebuild of that id nor the rebuild of the
      trimmed one matches, although nothing is lost or in flight. */
  lemma UntrimmedDepositBreaksBoth(cmd: Command, id: string, now: int)
    requires Trim(cmd.orderId) != cmd.orderId && Trim(cmd.orderId) != ""
    requires cmd.amount.Some? && cmd.amount.value > 0.0 && cmd.reversalOf == "" && id != ""
    ensures Resolved(cmd)
    ensures var (o, a, es) := (cmd.orderId, cmd.assetId, Whole(DepositCredit, cmd, id, now));
      && Legal(es) && Run(es).inFlight == map[] && Lossless(es, 3, o, a) && Lossless(es, 3, Trim(o), a)
      && SortedAt(es, 3, o, a, []) && !RebuildMatches(Row(Run(es), o, a), [])
      && SortedAt(es, 3, Trim(o), a, [DepositEntry(cmd, id, now)])
      && !RebuildMatches(Row(Run(es), Trim(o), a), [DepositEntry(cmd, id, now)])
  {
    hide Legal, Run, Admitted, DepositEntry, Trim, NextBalance, EntryFor, FreshBalance, Valid, FreshId, Lossless,
      ResolveTrimmed, NormalizeAccountLabel;
    var (o, a, e) := (cmd.orderId, cmd.assetId, DepositEntry(cmd, id, now));
    EmptyRun();
    DepositInState(EMPTY, cmd, id, now);
    WholeRuns([], DepositCredit, cmd, id, now);
    WholeLosesNothing([], DepositCredit, cmd, id, now, o, a);
    WholeLosesNothing([], DepositCredit, cmd, id, now, Trim(o), a);
    var es := Whole(DepositCredit, cmd, id, now);
    assert [] + es == es && es[..3] == es;
    SecondDeposit(EMPTY, cmd, id, now, (o, a));
    DepositEntryIs(cmd, id, now);
    EntryForFields(DepositCredit, cmd, id, now);
    ChosenOfOne(e, Trim(o), a);
    ChosenOfOther(e, o, a);
    ReplayOfOne(e);
    NewBalanceIsEmpty(Run(es).db, Trim(o), a);
  }

  lemma ChosenOfOther(e: Entry, orderId: string, assetId: string)
    requires e.scope.ledgerOrderId != orderId
    ensures InScope([e], orderId, assetId) == []
  {
    ChosenAppend([], e, Stored, orderId, assetId);
    assert [] + [e] == [e];
  }

  lemma SpacesAreSuchAnId()
    ensures Trim(" o1") != " o1" && Trim(" o1") != ""
  {
    assert IsSpace(" o1"[0]) && !IsSpace(" o1"[1]);
  }

  // ---- two balances with one lock key ----

  lemma NotBlank(s: string, i: nat)
    requires i < |s| && !IsSpace(s[i])
    ensures Trim(s) != ""
  {
    var a, b := TrimDropsOnlySpace(s);
  }

  lemma TwinIsNotBlank(orderId: string, assetId: string, suffix: string)
    requires ColonSuffix(assetId, suffix)
    ensures Trim(TwinOrder(orderId, assetId, suffix)) != ""
  {
    hide IsSpace, ColonSuffix;
    assert !IsSpace(':') by { ColonIsNotSpace(); }
    NotBlank(TwinOrder(orderId, assetId, suffix), |orderId|);
  }

  lemma ColonIsNotSpace()
    ensures !IsSpace(':')
  {
  }

  /** A deposit is lost and its balance paused. A rebuild of another, untouched balance
      with the same lock key matches and lifts the pause. */
  lemma TwinRebuildLiftsPause(cmd: Command, id: string, now: int, suffix: string)
    requires Usable(cmd.orderId) && cmd.amount.Some? && cmd.amount.value > 0.0 && id != "" && id != cmd.reversalOf
    requires ColonSuffix(cmd.assetId, suffix)
    ensures var (o, a, twin) := (cmd.orderId, cmd.assetId, TwinOrder(cmd.orderId, cmd.assetId, suffix));
      var es := LostDeposit(cmd, id, now) + [Pause(o, a)] + [Rebuild(twin, suffix, 4, 4, [])];
      && |es| == 5 && Legal(es) && LockKey(o, a) in At(es, 4).db.paused && LockKey(o, a) !in Run(es).db.paused
      && Row(Run(es), o, a) == FreshBalance(o)
  {
    hide Legal, Run, Trimmed, DepositEntry, LockKey, Trim, InScope, Replay, Resolved, LostDeposit, ColonSuffix,
      FreshBalance;
    var (o, a, twin) := (cmd.orderId, cmd.assetId, TwinOrder(cmd.orderId, cmd.assetId, suffix));
    PausedLostDeposit(cmd, id, now);
    UsableIsResolved(cmd);
    TwinHasSameKey(o, a, suffix);
    TwinIsNotBlank(o, a, suffix);
    EntryForFields(DepositCredit, cmd, id, now);
    DepositEntryIs(cmd, id, now);
    var (paused, look) := (LostDeposit(cmd, id, now) + [Pause(o, a)], Rebuild(twin, suffix, 4, 4, []));
    assert paused[..4] == paused;
    ChosenOfOther(DepositEntry(cmd, id, now), twin, suffix);
    RunMore(paused, look);
    AtMore(paused, [look], 4);
    NewBalanceIsEmpty(Run(paused).db, twin, suffix);
    NewBalanceHasNothing(Run(paused).db, twin, suffix);
  }

  lemma NewBalanceHasNothing(s: State, orderId: string, assetId: string)
    requires (orderId, assetId) !in s.balances
    ensures RebuildMatches(BalanceOf(s, orderId, assetId), [])
  {
    FreshIsEmpty(orderId);
  }

  // ---- a fee and its refund at one time ----

  function TiedRun(orderId: string, assetId: string, userId: string, x: real,
                   keys: (string, string, string), ids: (string, string, string)): seq<Event> {
    Whole(DepositCredit, Cmd(orderId, assetId, userId, x, keys.0, ""), ids.0, 0)
    + Whole(FeeDebit, Cmd(orderId, assetId, userId, x, keys.1, ""), ids.1, 1)
    + Whole(Reversal, Cmd(orderId, assetId, userId, x, keys.2, ids.1), ids.2, 1)
  }

  lemma ChargedRuns(orderId: string, assetId: string, userId: string, x: real, key1: string, id1: string,
                    key2: string, id2: string)
    requires Usable(orderId) && x > 0.0 && key1 != key2 && id1 != "" && id2 != "" && id1 != id2
    ensures var (c1, c2) := (Cmd(orderId, assetId, userId, x, key1, ""), Cmd(orderId, assetId, userId, x, key2, ""));
      var es := Whole(DepositCredit, c1, id1, 0) + Whole(FeeDebit, c2, id2, 1);
      && Resolved(c1) && Resolved(c2) && Legal(es) && Run(es).inFlight == map[] && Run(es).db.paused == {}
      && Lossless(es, 6, orderId, assetId)
      && Run(es).db.entries == [DepositEntry(c1, id1, 0)] + [EntryFor(FeeDebit, c2, id2, 1)]
      && Row(Run(es), orderId, assetId).books == Books(NO_FUNDS, x, 0.0, x)
  {
    hide Legal, Run, Admitted, Trimmed, DepositEntry, Trim, NextBalance, Resolved, EntryFor, FreshBalance, Lossless,
      InScope,
      IsSortOf, NoStrays, Replay, FirstUser, IsFor;
    var (c1, c2) := (Cmd(orderId, assetId, userId, x, key1, ""), Cmd(orderId, assetId, userId, x, key2, ""));
    var first := Whole(DepositCredit, c1, id1, 0);
    FirstDepositWhole(c1, id1, 0);
    DepositFacts(c1, id1, 0);
    UsableIsResolved(c2);
    AdmittedByFunds(Run(first).db, FeeDebit, c2);
    WholeRuns(first, FeeDebit, c2, id2, 1);
    WholeLosesNothing(first, FeeDebit, c2, id2, 1, orderId, assetId);
    NextBooks(Run(first).db, FeeDebit, c2, id2, 1);
  }

  /** A deposit spent on a fee and refunded within one millisecond: nothing is lost or in
      flight, and the rebuild matches with the rows in one order and not in the other. */
  lemma TiedRefundMatchesByOrder(orderId: string, assetId: string, userId: string, x: real,
                                 keys: (string, string, string), ids: (string, string, string))
    requires Usable(orderId) && x > 0.0 && keys.0 != keys.1 && keys.0 != keys.2 && keys.1 != keys.2
    requires ids.0 != "" && ids.1 != "" && ids.2 != "" && ids.0 != ids.1 && ids.0 != ids.2 && ids.1 != ids.2
    ensures var es := TiedRun(orderId, assetId, userId, x, keys, ids);
      && |es| == 9 && Legal(es) && Sound(es, 9, orderId, assetId) && Undisturbed(es, 9, 9, orderId, assetId)
      && |Run(es).db.entries| == 3
      && var (d, f, v) := (Run(es).db.entries[0], Run(es).db.entries[1], Run(es).db.entries[2]);
      && SortedAt(es, 9, orderId, assetId, [d] + [f] + [v]) && SortedAt(es, 9, orderId, assetId, [d] + [v] + [f])
      && RebuildMatches(Row(Run(es), orderId, assetId), [d] + [f] + [v])
      && !RebuildMatches(Row(Run(es), orderId, assetId), [d] + [v] + [f])
  {
    hide Legal, Run, Admitted, Trimmed, DepositEntry, Trim, NextBalance, Resolved, EntryFor, FreshBalance, Lossless,
      InScope,
      IsSortOf, NoStrays, Replay, FirstUser, LastUser, RebuildMatches, ForeignRealized, Row, Fees;
    var c1 := Cmd(orderId, assetId, userId, x, keys.0, "");
    var c2 := Cmd(orderId, assetId, userId, x, keys.1, "");
    var c3 := Cmd(orderId, assetId, userId, x, keys.2, ids.1);
    ChargedRuns(orderId, assetId, userId, x, keys.0, ids.0, keys.1, ids.1);
    var two := Whole(DepositCredit, c1, ids.0, 0) + Whole(FeeDebit, c2, ids.1, 1);
    UsableIsResolved(c3);
    DepositEntryIs(c1, ids.0, 0);
    EntryForFields(DepositCredit, c1, ids.0, 0);
    EntryForFields(FeeDebit, c2, ids.1, 1);
    EntryForFields(Reversal, c3, ids.2, 1);
    RowIs(Run(two), orderId, assetId);
    AdmittedByFunds(Run(two).db, Reversal, c3);
    WholeRuns(two, Reversal, c3, ids.2, 1);
    WholeLosesNothing(two, Reversal, c3, ids.2, 1, orderId, assetId);
    var es := two + Whole(Reversal, c3, ids.2, 1);
    assert es[..9] == es;
    var (d, f, v) := (EntryFor(DepositCredit, c1, ids.0, 0), EntryFor(FeeDebit, c2, ids.1, 1),
      EntryFor(Reversal, c3, ids.2, 1));
    NoStraysIfTrimmed(Run(es).db.entries, orderId, assetId);
    TiedEntries(Run(es).db, d, f, v, orderId, assetId, x);
    RebuildMatchesExactly(es, 9, 9, orderId, assetId, [d] + [f] + [v]);
    RebuildMatchesExactly(es, 9, 9, orderId, assetId, [d] + [v] + [f]);
  }

  /** What those three entries are in scope, in order, and in fees. */
  lemma TiedEntries(s: State, d: Entry, f: Entry, v: Entry, orderId: string, assetId: string, x: real)
    requires s.entries == [d] + [f] + [v] && x > 0.0 && d.userId == f.userId == v.userId
    requires d.kind == DepositCredit && f.kind == FeeDebit && v.kind == Reversal && f.amount == -x && v.amount == x
    requires IsFor(d, Stored, orderId, assetId) && IsFor(f, Stored, orderId, assetId)
    requires IsFor(v, Stored, orderId, assetId)
    requires v.reversalOf == f.entryId != "" && d.entryId != f.entryId && v.entryId != f.entryId
    requires d.createdAt <= f.createdAt == v.createdAt
    ensures var (xs, ys) := ([d] + [f] + [v], [d] + [v] + [f]);
      && InScope(s.entries, orderId, assetId) == xs && IsSortOf(xs, xs) && IsSortOf(ys, xs)
      && FirstUser(xs) == LastUser(xs) == FirstUser(ys) && ForeignRealized(s, orderId, assetId, xs) == 0.0
      && Fees(0.0, xs, xs) == 0.0 && Fees(0.0, xs, s.entries) == 0.0 && Fees(0.0, ys, ys) == x
  {
    hide IsFor, Chosen, KindOf, ForeignRealized, Fees, Foreign, IsSortOf;
    var (xs, ys) := ([d] + [f] + [v], [d] + [v] + [f]);
    ChosenOfAllThree(d, f, v, orderId, assetId);
    assert xs[1] == f && ys[2] == f;
    assert f in xs && f in ys;
    KindOfMember(xs, f);
    KindOfMember(ys, f);
    assert KindOf(xs, v.reversalOf) == Some(FeeDebit) && KindOf(ys, v.reversalOf) == Some(FeeDebit);
    FeesOfThree(xs, d, f, v);
    FeesOfThree(ys, d, v, f);
    NoForeignHere(s, d, f, v, orderId, assetId);
    SortsOfThree(d, f, v);
  }

  lemma ChosenOfAllThree(d: Entry, f: Entry, v: Entry, orderId: string, assetId: string)
    requires IsFor(d, Stored, orderId, assetId) && IsFor(f, Stored, orderId, assetId)
    requires IsFor(v, Stored, orderId, assetId)
    ensures Chosen([d] + [f] + [v], Stored, orderId, assetId) == [d] + [f] + [v]
  {
    hide IsFor;
    ChosenAppend([], d, Stored, orderId, assetId);
    assert [] + [d] == [d];
    ChosenAppend([d], f, Stored, orderId, assetId);
    ChosenAppend([d] + [f], v, Stored, orderId, assetId);
  }

  lemma SortsOfThree(d: Entry, f: Entry, v: Entry)
    requires d.createdAt <= f.createdAt == v.createdAt
    ensures IsSortOf([d] + [f] + [v], [d] + [f] + [v]) && IsSortOf([d] + [v] + [f], [d] + [f] + [v])
  {
    assert multiset([d] + [v] + [f]) == multiset([d] + [f] + [v]);
  }

  lemma FeesOfThree(pool: seq<Entry>, a: Entry, b: Entry, c: Entry)
    ensures Fees(0.0, [a] + [b] + [c], pool) == FeeAfter(FeeAfter(FeeAfter(0.0, a, pool), b, pool), c, pool)
  {
    hide FeeAfter, KindOf;
    NoEntriesNoFees(0.0, pool);
    assert [] + [a] == [a];
    FeesOfMore(0.0, [], a, pool);
    FeesOfMore(0.0, [a], b, pool);
    FeesOfMore(0.0, [a] + [b], c, pool);
  }

  lemma NoForeignHere(s: State, d: Entry, f: Entry, v: Entry, orderId: string, assetId: string)
    requires !d.kind.Reversal? && !f.kind.Reversal? && KindOf(s.entries, v.reversalOf) == Some(FeeDebit)
    ensures ForeignRealized(s, orderId, assetId, [d] + [f] + [v]) == 0.0
  {
    hide KindOf, Foreign;
    assert ([d] + [f] + [v])[..2] == [d] + [f] && ([d] + [f])[..1] == [d] && [d][..0] == [];
    assert ForeignRealized(s, orderId, assetId, [d]) == 0.0;
    assert ForeignRealized(s, orderId, assetId, [d] + [f]) == 0.0;
  }
}
