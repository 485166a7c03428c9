/** What each of the fourteen kinds of command does, in numbers: when it is accepted, the
    books it leaves, and the reason it is refused for. */
module LedgerOutcomes {
  import opened BalanceLedger
  import opened LedgerOrderScope
  import opened LedgerRuns
  import opened Outcomes
  import opened Text

  /** The books after a command, or why it was refused. */
  function OutcomeOf(s: State, kind: EntryType, cmd: Command, id: string, now: int): Result<Books, LedgerError> {
    match Apply(s, kind, cmd, id, now).1
    case Applied(_, balance) => Ok(balance.books)
    case Replayed(_, balance) => Ok(balance.books)
    case Refused(error) => Err(error)
  }

  function Before(s: State, cmd: Command): Books { BalanceOf(s, cmd.orderId, cmd.assetId).books }

  /** A new command: a reachable ledger, an order id that is not blank, a key not used. */
  ghost predicate IsNew(events: seq<Event>, cmd: Command) {
    Legal(events) && Trim(cmd.orderId) != "" && forall e <- Run(events).db.entries :: e.key != cmd.key
  }

  lemma NewMeans(events: seq<Event>, cmd: Command)
    requires IsNew(events, cmd)
    ensures var s := Run(events).db;
      && FindByKey(s.entries, cmd.key).None? && Resolved(cmd) && EntriesOk(s.entries)
      && BalanceOf(s, cmd.orderId, cmd.assetId).books.funds.NonNegative()
  {
    hide Legal, Run, FindByKey, EntriesOk, Valid, FreshBalance, Trim, ResolveTrimmed, NormalizeAccountLabel;
    RunKeepsInv(events);
    InvMeans(Run(events));
    FoundByKey(Run(events).db.entries, cmd.key);
    BalanceIsValid(Run(events).db, cmd.orderId, cmd.assetId);
  }

  lemma OutcomeIs(s: State, kind: EntryType, cmd: Command, id: string, now: int, reversed: Option<EntryType>)
    requires FindByKey(s.entries, cmd.key).None? && Resolved(cmd)
    requires kind.Reversal? ==> reversed == KindOf(s.entries, cmd.reversalOf)
    ensures OutcomeOf(s, kind, cmd, id, now) ==
      if Refusal(s, kind, cmd).Some? then Err(Refusal(s, kind, cmd).value)
      else Ok(Post(BalanceOf(s, cmd.orderId, cmd.assetId).books, kind, SignedAmount(kind, cmd.amount.value), reversed))
  {
    hide FindByKey, ResolveLedgerOrderScope, FreshBalance, KindOf, Effect, NextFee, Realized;
    if Refusal(s, kind, cmd).None? {
      var b := BalanceOf(s, cmd.orderId, cmd.assetId).books;
      PostIgnores(b, kind, SignedAmount(kind, cmd.amount.value), reversed, KindOf(s.entries, cmd.reversalOf));
    }
  }

  /** Amounts that are no finite number, or zero, are refused for every kind. */
  lemma NoAmount(events: seq<Event>, kind: EntryType, cmd: Command, id: string, now: int)
    requires IsNew(events, cmd) && (cmd.amount.None? || cmd.amount.value == 0.0)
    ensures OutcomeOf(Run(events).db, kind, cmd, id, now) == Err(BadAmount)
  {
    hide IsNew, Run, FindByKey, KindOf, FreshBalance, Resolved, EntriesOk;
    NewMeans(events, cmd);
    OutcomeIs(Run(events).db, kind, cmd, id, now, KindOf(Run(events).db.entries, cmd.reversalOf));
  }

  /** Credits: a deposit must be positive and is remembered as the initial one; rewards
      and LP fees may be negative as far as available funds go, and are realized. */
  lemma Credits(events: seq<Event>, cmd: Command, id: string, now: int, x: real)
    requires IsNew(events, cmd) && cmd.amount == Some(x) && x != 0.0
    ensures var s := Run(events).db;
      var Books(Funds(available, locked, external), initial, realized, fees) := Before(s, cmd);
      && OutcomeOf(s, DepositCredit, cmd, id, now)
         == (if x > 0.0 then Ok(Books(Funds(available + x, locked, external), initial + x, realized, fees))
             else Err(NotPositive))
      && forall kind | kind in {RewardCredit, LpFeeCredit} ::
           OutcomeOf(s, kind, cmd, id, now)
           == if available + x < 0.0 then Err(NegativeBalance)
              else Ok(Books(Funds(available + x, locked, external), initial, realized + x, fees))
  {
    hide IsNew, Run, FindByKey, KindOf, FreshBalance, Resolved, EntriesOk, OutcomeOf, BalanceOf;
    NewMeans(events, cmd);
    forall kind | kind in {DepositCredit, RewardCredit, LpFeeCredit} {
      OutcomeIs(Run(events).db, kind, cmd, id, now, KindOf(Run(events).db.entries, cmd.reversalOf));
    }
  }

  /** Debits: withdrawals, fees and releases of an allocation take available funds, gas
      takes locked ones; fees and gas are counted as fees. */
  lemma Debits(events: seq<Event>, cmd: Command, id: string, now: int, x: real)
    requires IsNew(events, cmd) && cmd.amount == Some(x) && x != 0.0
    ensures var s := Run(events).db;
      var Books(Funds(available, locked, external), initial, realized, fees) := Before(s, cmd);
      && (forall kind | kind in {WithdrawDebit, AllocationRelease, FeeDebit} ::
            OutcomeOf(s, kind, cmd, id, now)
            == if x < 0.0 then Err(NotPositive) else if x > available then Err(InsufficientAvailable)
               else Ok(Books(Funds(available - x, locked, external), initial, realized,
                             if kind == FeeDebit then fees + x else fees)))
      && OutcomeOf(s, GasDebit, cmd, id, now)
         == if x < 0.0 then Err(NotPositive) else if x > locked then Err(InsufficientLocked)
            else Ok(Books(Funds(available, locked - x, external), initial, realized, fees + x))
  {
    hide IsNew, Run, FindByKey, KindOf, FreshBalance, Resolved, EntriesOk, OutcomeOf, BalanceOf;
    NewMeans(events, cmd);
    forall kind | kind in {WithdrawDebit, AllocationRelease, FeeDebit, GasDebit} {
      OutcomeIs(Run(events).db, kind, cmd, id, now, KindOf(Run(events).db.entries, cmd.reversalOf));
    }
  }

  /** Locks move available funds to locked ones and are refused while paused; releases
      move them back. */
  lemma Locks(events: seq<Event>, cmd: Command, id: string, now: int, x: real)
    requires IsNew(events, cmd) && cmd.amount == Some(x) && x != 0.0
    ensures var s := Run(events).db;
      var Books(Funds(available, locked, external), initial, realized, fees) := Before(s, cmd);
      && OutcomeOf(s, ReserveLock, cmd, id, now)
         == (if x < 0.0 then Err(NotPositive)
             else if cmd.orderId + ":" + cmd.assetId in s.paused then Err(ReservationPaused)
             else if x > available then Err(InsufficientAvailable)
             else Ok(Books(Funds(available - x, locked + x, external), initial, realized, fees)))
      && OutcomeOf(s, ReserveRelease, cmd, id, now)
         == if x < 0.0 then Err(NotPositive) else if x > locked then Err(InsufficientLocked)
            else Ok(Books(Funds(available + x, locked - x, external), initial, realized, fees))
  {
    hide IsNew, Run, FindByKey, KindOf, FreshBalance, Resolved, EntriesOk, OutcomeOf, BalanceOf;
    NewMeans(events, cmd);
    forall kind | kind in {ReserveLock, ReserveRelease} {
      OutcomeIs(Run(events).db, kind, cmd, id, now, KindOf(Run(events).db.entries, cmd.reversalOf));
    }
  }

  /** Settlements: what a fill or swap spends comes out of locked funds, what it earns
      goes to available ones, and both are realized. Adding to a pool moves locked funds
      outside and removing brings external ones back. */
  lemma Settlements(events: seq<Event>, cmd: Command, id: string, now: int, x: real)
    requires IsNew(events, cmd) && cmd.amount == Some(x) && x != 0.0
    ensures var s := Run(events).db;
      var Books(Funds(available, locked, external), initial, realized, fees) := Before(s, cmd);
      && (forall kind | kind in {FillSettle, SwapSettle} ::
            OutcomeOf(s, kind, cmd, id, now)
            == if x > 0.0 then Ok(Books(Funds(available + x, locked, external), initial, realized + x, fees))
               else if -x > locked then Err(InsufficientLocked)
               else Ok(Books(Funds(available, locked + x, external), initial, realized + x, fees)))
      && OutcomeOf(s, LpAddSettle, cmd, id, now)
         == (if x > 0.0 then Err(WrongSign) else if -x > locked then Err(InsufficientLocked)
             else Ok(Books(Funds(available, locked + x, external - x), initial, realized + x, fees)))
      && OutcomeOf(s, LpRemoveSettle, cmd, id, now)
         == if x < 0.0 then Err(WrongSign) else if x > external then Err(InsufficientExternal)
            else Ok(Books(Funds(available + x, locked, external - x), initial, realized + x, fees))
  {
    hide IsNew, Run, FindByKey, KindOf, FreshBalance, Resolved, EntriesOk, OutcomeOf, BalanceOf;
    NewMeans(events, cmd);
    forall kind | kind in {FillSettle, SwapSettle, LpAddSettle, LpRemoveSettle} {
      OutcomeIs(Run(events).db, kind, cmd, id, now, KindOf(Run(events).db.entries, cmd.reversalOf));
    }
  }

  /** Reversals move available funds either way. What they undo decides the rest: an entry
      that was realized takes its part of the realized delta along, a fee is given back as
      far as there are fees, and nothing more follows from anything else. */
  lemma Reversals(events: seq<Event>, cmd: Command, id: string, now: int, x: real, undone: Option<Entry>)
    requires IsNew(events, cmd) && cmd.amount == Some(x) && x != 0.0
    requires match undone
      case Some(e) => e in Run(events).db.entries && e.entryId == cmd.reversalOf
      case None => forall e <- Run(events).db.entries :: e.entryId != cmd.reversalOf
    ensures var s := Run(events).db;
      var Books(Funds(available, locked, external), initial, realized, fees) := Before(s, cmd);
      var realizes := undone.Some? && undone.value.kind in
        {FillSettle, SwapSettle, LpAddSettle, LpRemoveSettle, LpFeeCredit, RewardCredit, Reversal};
      var back := if x < 0.0 then -x else x;
      var left := if undone.None? || undone.value.kind !in {FeeDebit, GasDebit} then fees
                  else if back > fees then 0.0 else fees - back;
      OutcomeOf(s, Reversal, cmd, id, now)
      == if available + x < 0.0 then Err(NegativeBalance)
         else Ok(Books(Funds(available + x, locked, external), initial,
                       if realizes then realized + x else realized, left))
  {
    hide IsNew, Run, FindByKey, KindOf, FreshBalance, Resolved, EntriesOk, OutcomeOf, BalanceOf;
    NewMeans(events, cmd);
    var s := Run(events).db;
    UndoneKind(s.entries, cmd.reversalOf, undone);
    OutcomeIs(s, Reversal, cmd, id, now, KindOf(s.entries, cmd.reversalOf));
  }

  lemma UndoneKind(xs: seq<Entry>, id: string, undone: Option<Entry>)
    requires EntriesOk(xs)
    requires match undone
      case Some(e) => e in xs && e.entryId == id
      case None => forall e <- xs :: e.entryId != id
    ensures KindOf(xs, id) == if undone.Some? then Some(undone.value.kind) else None
  {
    hide EntriesOk, KindOf;
    if undone.Some? {
      OneWithId(xs, undone.value);
      KindOfMember(xs, undone.value);
    } else {
      KindOfStranger(xs, id);
    }
  }

  /** Whatever the command, no other balance changes. */
  lemma OthersStay(s: State, kind: EntryType, cmd: Command, id: string, now: int, orderId: string, assetId: string)
    requires (orderId, assetId) != (cmd.orderId, cmd.assetId)
    ensures BalanceOf(Apply(s, kind, cmd, id, now).0, orderId, assetId) == BalanceOf(s, orderId, assetId)
  {
    hide Refusal, FindByKey, ResolveLedgerOrderScope, FreshBalance, NewEntry, NextBalance;
  }

  // ---- whose order it is ----

  /** In every run, an entry that is saved for a command that names a user's order, and the
      row written for it, carry that order's trimmed id and the trimmed label, or `default`
      without one; and both carry the command's user. */
  lemma SavedCarriesOrder(events: seq<Event>, n: nat)
    requires Legal(events) && n < |events| && Saves(At(events, n), events[n])
    ensures var key := (events[n].orderId, events[n].assetId);
      var (cmd, entry) := (At(events, n).inFlight[key].cmd, SavedEntry(At(events, n), events[n]));
      var saved := DoSaveEntry(At(events, n), key, events[n].id, events[n].now);
      var row := ToWrite(saved.inFlight[key]);
      var tag := if Trim(cmd.accountLabel) == "" then "default" else Trim(cmd.accountLabel);
      && At(events, n + 1) == saved && DoSaveBalance(saved, key).db.balances == saved.db.balances[key := row]
      && entry.userId == row.userId == cmd.userId && row.userOrderId == entry.scope.userOrderId
      && row.accountLabel == entry.scope.accountLabel && entry.scope.ledgerOrderId == Trim(cmd.orderId)
      && (Trim(cmd.userOrderId) != "" ==> entry.scope == Scope(Trim(cmd.userOrderId), Trim(cmd.orderId), tag))
  {
    hide Legal, Run, Inv, Allowed, ReadsAreReal, FindByKey, Refusal, Trim, FreshBalance, KindOf, Post, LastColon,
      EndsWith, ResolveLedgerOrderScope;
    var w, e := At(events, n), events[n];
    var key := (e.orderId, e.assetId);
    StepAt(events, n);
    StartedScope(events, n, key);
    InvAt(events, n);
    ScopeWithUser(w.inFlight[key].cmd);
  }

  lemma ScopeWithUser(cmd: Command)
    requires Resolved(cmd)
    ensures var scope := ResolveLedgerOrderScope(cmd.orderId, cmd.userOrderId, cmd.accountLabel).value;
      var tag := if Trim(cmd.accountLabel) == "" then "default" else Trim(cmd.accountLabel);
      && scope.ledgerOrderId == Trim(cmd.orderId)
      && (Trim(cmd.userOrderId) != "" ==> scope == Scope(Trim(cmd.userOrderId), Trim(cmd.orderId), tag))
  {
    hide Trim, LastColon, EndsWith;
  }

  lemma {:induction false} StartedScope(events: seq<Event>, n: nat, key: (string, string))
    requires Legal(events) && n <= |events| && key in At(events, n).inFlight
    ensures var m := At(events, n).inFlight[key];
      ResolveLedgerOrderScope(m.cmd.orderId, m.cmd.userOrderId, m.cmd.accountLabel) == Ok(m.scope)
    decreases n
  {
    hide Legal, Run, Inv, Allowed, ReadsAreReal, FindByKey, Refusal, ResolveLedgerOrderScope, FreshBalance, KindOf,
      EntryOf, ToWrite;
    if n == 0 {
      assert events[..0] == [];
      assert Run([]) == START by { RunOfNothing(); }
    } else {
      StepAt(events, n - 1);
      if key in At(events, n - 1).inFlight { StartedScope(events, n - 1, key); }
    }
  }

  /** A row that is created for an order nobody has written to is empty, and is split into
      user order and label as the id alone says. */
  lemma NewRows(orderId: string)
    requires Trim(orderId) != ""
    ensures var row := FreshBalance(orderId);
      && row.books == Books(Funds(0.0, 0.0, 0.0), 0.0, 0.0, 0.0) && row.total == 0.0 && row.userId == ""
      && ResolveLedgerOrderScope(orderId, "", "") == Ok(Scope(row.userOrderId, Trim(orderId), row.accountLabel))
  {
    hide Trim, LastColon, EndsWith;
    DefaultLabel();
  }
}
