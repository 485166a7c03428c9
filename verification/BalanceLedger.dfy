/** server/src/modules/market-making/ledger/balance-ledger.service.ts: an
    append-only ledger with one running balance per order and asset.

    Amounts are exact decimals, so they are `real` here; an amount text that is
    not a finite number is `None`. The SHA-256 of the payload is the payload
    itself. Absent optional strings are `""`, as in `LedgerOrderScope`. */
module BalanceLedger {
  import opened LedgerOrderScope
  import opened Outcomes
  import opened Text

  datatype EntryType =
    | DepositCredit | ReserveLock | ReserveRelease | FillSettle | SwapSettle
    | LpAddSettle | LpRemoveSettle | LpFeeCredit | FeeDebit | GasDebit
    | WithdrawDebit | AllocationRelease | RewardCredit | Reversal

  datatype Command = Command(
    orderId: string, userOrderId: string, accountLabel: string, userId: string, assetId: string,
    amount: Option<real>, key: string, refType: string, refId: string, reversalOf: string)

  /** What the idempotency hash is taken over. */
  datatype Content = Content(
    orderId: string, userId: string, assetId: string, amount: Option<real>, kind: EntryType,
    refType: string, refId: string, reversalOf: string)

  datatype Entry = Entry(
    entryId: string, scope: Scope, userId: string, assetId: string, amount: real, kind: EntryType,
    reversalOf: string, key: string, content: Content, createdAt: int)

  datatype Funds = Funds(available: real, locked: real, externalLocked: real) {
    function Plus(d: Funds): Funds {
      Funds(available + d.available, locked + d.locked, externalLocked + d.externalLocked)
    }

    function Minus(d: Funds): Funds {
      Funds(available - d.available, locked - d.locked, externalLocked - d.externalLocked)
    }

    function Total(): real { available + locked + externalLocked }

    predicate NonNegative() { available >= 0.0 && locked >= 0.0 && externalLocked >= 0.0 }
  }

  const NO_FUNDS := Funds(0.0, 0.0, 0.0)

  datatype Books = Books(funds: Funds, initialDeposit: real, realizedDelta: real, feePaid: real)

  const EMPTY_BOOKS := Books(NO_FUNDS, 0.0, 0.0, 0.0)

  datatype Balance = Balance(userId: string, userOrderId: string, accountLabel: string, books: Books, total: real)

  datatype State = State(entries: seq<Entry>, balances: map<(string, string), Balance>, paused: set<string>)

  const EMPTY := State([], map[], {})

  datatype LedgerError =
    | BlankOrder | IdempotencyConflict | BadAmount | NotPositive | ReservationPaused | WrongSign
    | InsufficientAvailable | InsufficientLocked | InsufficientExternal | NegativeBalance

  datatype Outcome =
    | Applied(entry: Entry, balance: Balance)
    | Replayed(entry: Entry, balance: Balance)
    | Refused(error: LedgerError)

  // ---- what one entry does ----

  /** What an entry's signed amount moves. Locks, releases and the LP moves shift
      funds inside a balance; the rest bring funds in or take them out. */
  function Effect(kind: EntryType, amount: real): Funds {
    match kind
    case ReserveLock => Funds(-amount, amount, 0.0)
    case ReserveRelease => Funds(amount, -amount, 0.0)
    case FillSettle | SwapSettle => if amount < 0.0 then Funds(0.0, amount, 0.0) else Funds(amount, 0.0, 0.0)
    case LpAddSettle => Funds(0.0, amount, Abs(amount))
    case LpRemoveSettle => Funds(amount, 0.0, -amount)
    case GasDebit => Funds(0.0, amount, 0.0)
    case _ => Funds(amount, 0.0, 0.0)
  }

  function Abs(x: real): real { if x < 0.0 then -x else x }

  function Max(x: real, y: real): real { if x < y then y else x }

  predicate Realizes(kind: EntryType) {
    || kind.FillSettle? || kind.SwapSettle? || kind.LpAddSettle? || kind.LpRemoveSettle?
    || kind.LpFeeCredit? || kind.RewardCredit?
  }

  predicate IsFee(kind: EntryType) { kind.FeeDebit? || kind.GasDebit? }

  /** Whether undoing an entry of this type moves the realized delta. */
  predicate ReversalRealizes(reversed: Option<EntryType>) {
    reversed.Some? && (Realizes(reversed.value) || reversed.value.Reversal?)
  }

  predicate ReversalRefundsFee(reversed: Option<EntryType>) {
    reversed.Some? && IsFee(reversed.value)
  }

  function Realized(kind: EntryType, amount: real, reversed: Option<EntryType>): real {
    if Realizes(kind) || (kind.Reversal? && ReversalRealizes(reversed)) then amount else 0.0
  }

  function NextFee(fee: real, kind: EntryType, amount: real, reversed: Option<EntryType>): real {
    if IsFee(kind) then fee + Abs(amount)
    else if kind.Reversal? && ReversalRefundsFee(reversed) then Max(fee - Abs(amount), 0.0)
    else fee
  }

  function Post(b: Books, kind: EntryType, amount: real, reversed: Option<EntryType>): Books {
    Books(
      b.funds.Plus(Effect(kind, amount)),
      if kind.DepositCredit? then b.initialDeposit + amount else b.initialDeposit,
      b.realizedDelta + Realized(kind, amount, reversed),
      NextFee(b.feePaid, kind, amount, reversed))
  }

  /** The type of the entry with this id in `pool`, if there is one. */
  function KindOf(pool: seq<Entry>, id: string): Option<EntryType> {
    if id == "" || pool == [] then None
    else if pool[|pool| - 1].entryId == id then Some(pool[|pool| - 1].kind)
    else KindOf(pool[..|pool| - 1], id)
  }

  /** The books that a list of entries adds up to, in list order; reversals look
      their entry up in `pool`. */
  function Replay(xs: seq<Entry>, pool: seq<Entry>): Books {
    if xs == [] then EMPTY_BOOKS else
      var e := xs[|xs| - 1];
      Post(Replay(xs[..|xs| - 1], pool), e.kind, e.amount, KindOf(pool, e.reversalOf))
  }

  /** An entry is stored under the trimmed order id; the command's own id survives in
      what the hash is taken over. */
  datatype IdSide = Stored | Given

  predicate IsFor(e: Entry, side: IdSide, orderId: string, assetId: string) {
    e.assetId == assetId && orderId == (if side.Stored? then e.scope.ledgerOrderId else e.content.orderId)
  }

  function Chosen(xs: seq<Entry>, side: IdSide, orderId: string, assetId: string): seq<Entry> {
    if xs == [] then [] else
      var rest := Chosen(xs[..|xs| - 1], side, orderId, assetId);
      var e := xs[|xs| - 1];
      if IsFor(e, side, orderId, assetId) then rest + [e] else rest
  }

  /** What a query for an order and asset finds. */
  function InScope(xs: seq<Entry>, orderId: string, assetId: string): seq<Entry> {
    Chosen(xs, Stored, orderId, assetId)
  }

  // ---- commands ----

  /** The sign under which a command's amount is stored. */
  function SignedAmount(kind: EntryType, amount: real): real {
    if kind.WithdrawDebit? || kind.FeeDebit? || kind.AllocationRelease? || kind.GasDebit? then -amount else amount
  }

  /** The sign under which a repeated command is compared with the stored entry. */
  function RetryAmount(kind: EntryType, amount: real): real {
    if kind.WithdrawDebit? || kind.FeeDebit? || kind.AllocationRelease? then -amount else amount
  }

  function ContentOf(kind: EntryType, cmd: Command, amount: Option<real>): Content {
    Content(cmd.orderId, cmd.userId, cmd.assetId, amount, kind, cmd.refType, cmd.refId, cmd.reversalOf)
  }

  function RetryContent(kind: EntryType, cmd: Command): Content {
    ContentOf(kind, cmd, if cmd.amount.Some? then Some(RetryAmount(kind, cmd.amount.value)) else None)
  }

  function FindByKey(xs: seq<Entry>, key: string): Option<Entry> {
    if xs == [] then None
    else if xs[|xs| - 1].key == key then Some(xs[|xs| - 1])
    else FindByKey(xs[..|xs| - 1], key)
  }

  lemma {:induction false} FoundByKey(xs: seq<Entry>, key: string)
    ensures var e := FindByKey(xs, key);
      if e.Some? then e.value in xs && e.value.key == key else forall x <- xs :: x.key != key
  {
    if xs != [] {
      FoundByKey(xs[..|xs| - 1], key);
      assert xs == xs[..|xs| - 1] + [xs[|xs| - 1]];
    }
  }

  function LockKey(orderId: string, assetId: string): string { orderId + ":" + assetId }

  function FreshBalance(orderId: string): Balance {
    var scope := ResolveLedgerOrderScope(orderId, "", "");
    if scope.Ok? then Balance("", scope.value.userOrderId, scope.value.accountLabel, EMPTY_BOOKS, 0.0)
    else Balance("", "", "", EMPTY_BOOKS, 0.0)
  }

  function BalanceOf(s: State, orderId: string, assetId: string): Balance {
    if (orderId, assetId) in s.balances then s.balances[(orderId, assetId)] else FreshBalance(orderId)
  }

  /** The types whose amount may be negative or has a check of its own. */
  predicate SignIsFree(kind: EntryType) { Realizes(kind) || kind.Reversal? }

  function Shortage(kind: EntryType): LedgerError {
    match kind
    case WithdrawDebit | FeeDebit | AllocationRelease | ReserveLock => InsufficientAvailable
    case GasDebit | ReserveRelease | LpAddSettle | FillSettle | SwapSettle => InsufficientLocked
    case LpRemoveSettle => InsufficientExternal
    case _ => NegativeBalance
  }

  /** Why a new command is refused: it has no proper amount, its lock is paused,
      or it would leave a part of the balance negative. */
  function Refusal(s: State, kind: EntryType, cmd: Command): Option<LedgerError> {
    if cmd.amount.None? || cmd.amount.value == 0.0 then Some(BadAmount) else
      var a := cmd.amount.value;
      var funds := BalanceOf(s, cmd.orderId, cmd.assetId).books.funds;
      if !SignIsFree(kind) && a < 0.0 then Some(NotPositive)
      else if kind.ReserveLock? && LockKey(cmd.orderId, cmd.assetId) in s.paused then Some(ReservationPaused)
      else if (kind.LpAddSettle? && a > 0.0) || (kind.LpRemoveSettle? && a < 0.0) then Some(WrongSign)
      else if !funds.Plus(Effect(kind, SignedAmount(kind, a))).NonNegative() then Some(Shortage(kind))
      else None
  }

  function NewEntry(kind: EntryType, cmd: Command, amount: real, scope: Scope, id: string, now: int): Entry {
    var signed := SignedAmount(kind, amount);
    Entry(id, scope, cmd.userId, cmd.assetId, signed, kind, cmd.reversalOf, cmd.key,
          ContentOf(kind, cmd, Some(signed)), now)
  }

  /** The row that is written after `e` to a balance that was read before it. */
  function NextFrom(read: Balance, e: Entry, reversed: Option<EntryType>): Balance {
    var books := Post(read.books, e.kind, e.amount, reversed);
    Balance(e.userId, e.scope.userOrderId, e.scope.accountLabel, books, books.funds.Total())
  }

  function NextBalance(s: State, e: Entry, orderId: string): Balance {
    NextFrom(BalanceOf(s, orderId, e.assetId), e, KindOf(s.entries, e.reversalOf))
  }

  /** One command on the ledger; `id` is the random id and `now` the clock. */
  function Apply(s: State, kind: EntryType, cmd: Command, id: string, now: int): (State, Outcome) {
    var scope := ResolveLedgerOrderScope(cmd.orderId, cmd.userOrderId, cmd.accountLabel);
    if scope.Err? then (s, Refused(BlankOrder)) else ApplyInScope(s, kind, cmd, scope.value, id, now)
  }

  function ApplyInScope(s: State, kind: EntryType, cmd: Command, scope: Scope, id: string, now: int): (State, Outcome) {
    var existing := FindByKey(s.entries, cmd.key);
    if existing.Some? then
      (s, if existing.value.content == RetryContent(kind, cmd)
          then Replayed(existing.value, BalanceOf(s, cmd.orderId, cmd.assetId))
          else Refused(IdempotencyConflict))
    else if Refusal(s, kind, cmd).Some? then (s, Refused(Refusal(s, kind, cmd).value))
    else
      var e := NewEntry(kind, cmd, cmd.amount.value, scope, id, now);
      var b := NextBalance(s, e, cmd.orderId);
      (State(s.entries + [e], s.balances[(cmd.orderId, cmd.assetId) := b], s.paused), Applied(e, b))
  }

  // ---- rebuilding a balance from its entries ----

  predicate Chronological(xs: seq<Entry>) {
    forall i, j | 0 <= i < j < |xs| :: xs[i].createdAt <= xs[j].createdAt
  }

  predicate StrictlyChronological(xs: seq<Entry>) {
    forall i, j | 0 <= i < j < |xs| :: xs[i].createdAt < xs[j].createdAt
  }

  /** `sorted` is what sorting by time may make of the rows the query returned,
      in whatever order it returned them. */
  predicate IsSortOf(sorted: seq<Entry>, rows: seq<Entry>) {
    multiset(sorted) == multiset(rows) && Chronological(sorted)
  }

  function FirstUser(sorted: seq<Entry>): string { if sorted == [] then "" else sorted[0].userId }

  /** Which fields of the stored row the rebuild compares. */
  predicate Matches(actual: Balance, userId: string, expected: Books) {
    && actual.userId == userId
    && actual.books.funds.available == expected.funds.available
    && actual.books.funds.locked == expected.funds.locked
    && actual.total == expected.funds.Total()
    && actual.books.initialDeposit == expected.initialDeposit
    && actual.books.realizedDelta == expected.realizedDelta
    && actual.books.feePaid == expected.feePaid
  }

  /** `row` and `sorted` are what the two queries of a rebuild returned, perhaps at
      different times. */
  predicate RebuildMatches(row: Balance, sorted: seq<Entry>) {
    Matches(row, FirstUser(sorted), Replay(sorted, sorted))
  }

  /** Rebuilding pauses new reservations on a mismatch and lifts the pause on a match;
      a blank order id is refused. */
  function AfterRebuild(s: State, orderId: string, assetId: string, row: Balance, sorted: seq<Entry>): State {
    var key := LockKey(orderId, assetId);
    if Trim(orderId) == "" then s
    else s.(paused := if RebuildMatches(row, sorted) then s.paused - {key} else s.paused + {key})
  }

  ghost predicate ValidBalance(b: Balance) { b.books.funds.NonNegative() && b.total == b.books.funds.Total() }

  /** No part of a balance is negative and the total is the sum of the parts. */
  ghost predicate Valid(s: State) { forall k <- s.balances :: ValidBalance(s.balances[k]) }

  lemma BalanceIsValid(s: State, orderId: string, assetId: string)
    requires Valid(s)
    ensures ValidBalance(BalanceOf(s, orderId, assetId))
  {
  }

  class BalanceLedgerService {
    var entries: seq<Entry>
    var balances: map<(string, string), Balance>
    var paused: set<string>

    ghost function View(): State
      reads this
    {
      State(entries, balances, paused)
    }

    constructor ()
      ensures View() == EMPTY
    {
      entries, balances, paused := [], map[], {};
    }

    /** The balance checks and moves of applyMutationWithRepositories. */
    static method SettleFunds(kind: EntryType, amount: real, funds: Funds) returns (next: Result<Funds, LedgerError>,
                              signed: real)
      requires funds.NonNegative() && amount != 0.0 && (SignIsFree(kind) || amount > 0.0)
      ensures next.Ok? ==> signed == SignedAmount(kind, amount)
      ensures (kind.LpAddSettle? && amount > 0.0) || (kind.LpRemoveSettle? && amount < 0.0) <==> next == Err(WrongSign)
      ensures next.Ok? ==>
        next.value == funds.Plus(Effect(kind, SignedAmount(kind, amount))) && next.value.NonNegative()
      ensures next.Err? && next.error != WrongSign ==>
        next.error == Shortage(kind) && !funds.Plus(Effect(kind, SignedAmount(kind, amount))).NonNegative()
    {
      var Funds(available, locked, externalLocked) := funds;
      var nextAvailable, nextLocked, nextExternal := available, locked, externalLocked;
      signed := amount;
      if kind == DepositCredit || kind == RewardCredit || kind == LpFeeCredit {
        nextAvailable := available + amount;
      }
      if kind == WithdrawDebit || kind == FeeDebit || kind == AllocationRelease {
        if available < amount {
          return Err(InsufficientAvailable), signed;
        }
        nextAvailable, signed := available - amount, -amount;
      }
      if kind == GasDebit {
        if locked < amount {
          return Err(InsufficientLocked), signed;
        }
        nextLocked, signed := locked - amount, -amount;
      }
      if kind == ReserveLock {
        if available < amount {
          return Err(InsufficientAvailable), signed;
        }
        nextAvailable, nextLocked := available - amount, locked + amount;
      }
      if kind == ReserveRelease {
        if locked < amount {
          return Err(InsufficientLocked), signed;
        }
        nextAvailable, nextLocked := available + amount, locked - amount;
      }
      if kind == FillSettle || kind == SwapSettle {
        if amount < 0.0 {
          if locked < Abs(amount) {
            return Err(InsufficientLocked), signed;
          }
          nextLocked := locked - Abs(amount);
        } else {
          nextAvailable := available + amount;
        }
      }
      if kind == LpAddSettle {
        if amount >= 0.0 {
          return Err(WrongSign), signed;
        }
        if locked < Abs(amount) {
          return Err(InsufficientLocked), signed;
        }
        nextLocked, nextExternal := locked - Abs(amount), externalLocked + Abs(amount);
      }
      if kind == LpRemoveSettle {
        if amount <= 0.0 {
          return Err(WrongSign), signed;
        }
        if externalLocked < amount {
          return Err(InsufficientExternal), signed;
        }
        nextExternal, nextAvailable := externalLocked - amount, available + amount;
      }
      if kind == Reversal {
        nextAvailable := available + amount;
      }
      if nextAvailable < 0.0 || nextLocked < 0.0 || nextExternal < 0.0 {
        return Err(NegativeBalance), signed;
      }
      next := Ok(Funds(nextAvailable, nextLocked, nextExternal));
    }

    /** applyMutation under its lock. */
    method ApplyMutation(kind: EntryType, cmd: Command, id: string, now: int) returns (outcome: Outcome)
      requires Valid(View())
      modifies this
      ensures (View(), outcome) == Apply(old(View()), kind, cmd, id, now)
    {
      var resolved := ResolveLedgerOrderScope(cmd.orderId, cmd.userOrderId, cmd.accountLabel);
      if resolved.Err? {
        return Refused(BlankOrder);
      }
      outcome := ApplyResolved(kind, cmd, resolved.value, id, now);
    }

    /** The checks a new command passes through, in the order the code makes them. */
    method Admit(kind: EntryType, cmd: Command, funds: Funds) returns (refusal: Option<LedgerError>, next: Funds,
                 signed: real)
      requires Valid(View()) && funds == BalanceOf(View(), cmd.orderId, cmd.assetId).books.funds
      ensures refusal == Refusal(View(), kind, cmd)
      ensures refusal.None? ==>
        signed == SignedAmount(kind, cmd.amount.value) && next == funds.Plus(Effect(kind, signed))
    {
      next, signed := funds, 0.0;
      if cmd.amount.None? || cmd.amount.value == 0.0 {
        return Some(BadAmount), next, signed;
      }
      var amount := cmd.amount.value;
      if !SignIsFree(kind) && amount <= 0.0 {
        return Some(NotPositive), next, signed;
      }
      if kind == ReserveLock && LockKey(cmd.orderId, cmd.assetId) in paused {
        return Some(ReservationPaused), next, signed;
      }
      BalanceIsValid(View(), cmd.orderId, cmd.assetId);
      var settled: Result<Funds, LedgerError>;
      settled, signed := SettleFunds(kind, amount, funds);
      if settled.Err? {
        return Some(settled.error), next, signed;
      }
      return None, settled.value, signed;
    }

    method ApplyResolved(kind: EntryType, cmd: Command, scope: Scope, id: string, now: int) returns (outcome: Outcome)
      requires Valid(View())
      modifies this
      ensures (View(), outcome) == ApplyInScope(old(View()), kind, cmd, scope, id, now)
    {
      var existing := FindByKey(entries, cmd.key);
      var current := BalanceOf(State(entries, balances, paused), cmd.orderId, cmd.assetId);
      if existing.Some? {
        if existing.value.content != RetryContent(kind, cmd) {
          return Refused(IdempotencyConflict);
        }
        return Replayed(existing.value, current);
      }
      var refusal, funds, signed := Admit(kind, cmd, current.books.funds);
      if refusal.Some? {
        return Refused(refusal.value);
      }
      var entry := Entry(id, scope, cmd.userId, cmd.assetId, signed, kind, cmd.reversalOf, cmd.key,
                         ContentOf(kind, cmd, Some(signed)), now);
      var next := SaveEntry(entry, cmd.orderId, current, cmd.amount.value, funds);
      return Applied(entry, next);
    }

    /** The two saves at the end of applyMutationWithRepositories. */
    method SaveEntry(e: Entry, orderId: string, current: Balance, amount: real, funds: Funds) returns (next: Balance)
      requires current == BalanceOf(View(), orderId, e.assetId)
      requires e.amount == SignedAmount(e.kind, amount) && (SignIsFree(e.kind) || amount > 0.0)
      requires funds == current.books.funds.Plus(Effect(e.kind, e.amount))
      modifies this
      ensures next == NextBalance(old(View()), e, orderId)
      ensures entries == old(entries) + [e] && paused == old(paused)
      ensures balances == old(balances)[(orderId, e.assetId) := next]
    {
      var reversed := if e.kind == Reversal then KindOf(entries, e.reversalOf) else None;
      var initialDeposit := current.books.initialDeposit;
      if e.kind == DepositCredit { initialDeposit := initialDeposit + amount; }
      var realizedDelta := current.books.realizedDelta;
      if Realizes(e.kind) || ReversalRealizes(reversed) { realizedDelta := realizedDelta + e.amount; }
      var feePaid := current.books.feePaid;
      if IsFee(e.kind) { feePaid := feePaid + amount; }
      else if e.kind == Reversal && ReversalRefundsFee(reversed) { feePaid := Max(feePaid - Abs(amount), 0.0); }
      next := Balance(e.userId, e.scope.userOrderId, e.scope.accountLabel,
                      Books(funds, initialDeposit, realizedDelta, feePaid), funds.Total());
      entries := entries + [e];
      balances := balances[(orderId, e.assetId) := next];
    }

    /** projectBalanceFromEntries: the loop over the sorted entries. */
    method ProjectBalanceFromEntries(sorted: seq<Entry>) returns (books: Books)
      ensures books == Replay(sorted, sorted)
    {
      books := EMPTY_BOOKS;
      for i := 0 to |sorted|
        invariant books == Replay(sorted[..i], sorted)
      {
        assert sorted[..i + 1][..i] == sorted[..i];
        books := ProjectEntry(books, sorted[i], KindOf(sorted, sorted[i].reversalOf));
      }
      assert sorted[..|sorted|] == sorted;
    }

    /** The body of that loop. */
    static method ProjectEntry(books: Books, e: Entry, reversed: Option<EntryType>) returns (next: Books)
      ensures next == Post(books, e.kind, e.amount, reversed)
    {
      var Books(Funds(available, locked, externalLocked), initialDeposit, realizedDelta, feePaid) := books;
      match e.kind {
        case DepositCredit | RewardCredit | LpFeeCredit | WithdrawDebit | FeeDebit | AllocationRelease | Reversal =>
          available := available + e.amount;
        case GasDebit =>
          locked := locked + e.amount;
        case ReserveLock =>
          available, locked := available - e.amount, locked + e.amount;
        case ReserveRelease =>
          available, locked := available + e.amount, locked - e.amount;
        case FillSettle | SwapSettle =>
          if e.amount < 0.0 { locked := locked + e.amount; } else { available := available + e.amount; }
        case LpAddSettle =>
          locked, externalLocked := locked + e.amount, externalLocked + Abs(e.amount);
        case LpRemoveSettle =>
          externalLocked, available := externalLocked - e.amount, available + e.amount;
      }
      if e.kind == DepositCredit { initialDeposit := initialDeposit + e.amount; }
      if Realizes(e.kind) || (e.kind == Reversal && ReversalRealizes(reversed)) {
        realizedDelta := realizedDelta + e.amount;
      }
      if IsFee(e.kind) { feePaid := feePaid + Abs(e.amount); }
      if e.kind == Reversal && ReversalRefundsFee(reversed) { feePaid := Max(feePaid - Abs(e.amount), 0.0); }
      next := Books(Funds(available, locked, externalLocked), initialDeposit, realizedDelta, feePaid);
    }

    /** The save at the end of getOrCreateBalance, for a row that was not found. */
    method CreateBalanceRow(orderId: string, assetId: string) returns (row: Balance)
      modifies this
      ensures row == FreshBalance(orderId)
      ensures View() == old(View()).(balances := old(balances)[(orderId, assetId) := row])
    {
      row := FreshBalance(orderId);
      balances := balances[(orderId, assetId) := row];
    }

    /** rebuildOrderBalance after its two queries: `sorted` is what the sort made of the
        entries found, and `actual` the row that was found or created. */
    method RebuildOrderBalance(orderId: string, assetId: string, sorted: seq<Entry>, actual: Balance)
      returns (r: Result<bool, LedgerError>)
      modifies this
      ensures View() == AfterRebuild(old(View()), orderId, assetId, actual, sorted)
      ensures r == if Trim(orderId) == "" then Err(BlankOrder) else Ok(RebuildMatches(actual, sorted))
    {
      hide FreshBalance, Replay, InScope, KindOf;
      if Trim(orderId) == "" {
        return Err(BlankOrder);
      }
      var expected := ProjectBalanceFromEntries(sorted);
      var matches := Matches(actual, FirstUser(sorted), expected);
      if matches {
        paused := paused - {LockKey(orderId, assetId)};
      } else {
        paused := paused + {LockKey(orderId, assetId)};
      }
      return Ok(matches);
    }

    method PauseReservations(orderId: string, assetId: string)
      modifies this
      ensures View() == old(View()).(paused := old(paused) + {LockKey(orderId, assetId)})
    {
      paused := paused + {LockKey(orderId, assetId)};
    }
  }
}
