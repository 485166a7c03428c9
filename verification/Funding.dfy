/** web3-interface/src/lib/stores/funding.ts: session deposits and withdrawals over
    seed balances. Decimal amounts are `real`; the amount typed by the user is given
    by what the number parser makes of it. */
module Funding {
  import opened Decimal
  import opened Outcomes
  import opened Text

  datatype Namespace = Evm | Solana

  datatype Balance = Balance(asset: string, namespace: Namespace, symbol: string, decimals: nat,
                             amount: real, pendingAmount: Option<real>)

  datatype Delta = Delta(accountId: string, asset: string, amount: real)

  datatype AmountText = Empty | Blank | NotNumeric | Numeric(value: real)

  datatype FundingError =
    | NoAsset | NotANumber | NotPositive | TooManyDecimals | BelowMinimum | ExceedsBalance
    | DestinationMissing | DestinationInvalid

  datatype Activity = Activity(id: string, accountId: string, namespace: Namespace, credited: bool)

  datatype State = State(sequence: nat, deposits: seq<Delta>, withdrawals: seq<Delta>, activity: seq<Activity>)

  const EMPTY := State(0, [], [], [])

  predicate IsNative(symbol: string) { symbol == "ETH" || symbol == "SOL" }

  function MinimumDepositFor(b: Balance): real { if IsNative(b.symbol) then 0.01 else 25.0 }

  function MinimumWithdrawFor(b: Balance): real { if IsNative(b.symbol) then 0.01 else 10.0 }

  function SuggestedDepositFor(b: Balance): real { if IsNative(b.symbol) then 0.25 else 250.0 }

  predicate IsInteger(x: real) { x == x.Floor as real }

  /** `x.decimalPlaces() <= n`. */
  predicate HasDecimals(x: real, n: nat) { IsInteger(Scaled(x, n)) }

  function Scaled(x: real, n: nat): real { x * Pow10(n) as real }

  // ---- what is shown ----

  /** How many parts a unit is shown in: four decimals for fine assets, else two. */
  function Scale(decimals: nat): real { if decimals > 6 then 10000.0 else 100.0 }

  /** Half of the last shown decimal. */
  function HalfUnit(decimals: nat): real { if decimals > 6 then 0.00005 else 0.005 }

  /** `x.toFixed(k)` with k decimals for scale 10^k: to the nearest, halves away from zero. */
  function Rounded(x: real, scale: real): real
    requires scale > 0.0
  {
    if x >= 0.0 then (x * scale + 0.5).Floor as real / scale else -((-x * scale + 0.5).Floor as real / scale)
  }

  function Total(deltas: seq<Delta>, accountId: string, asset: string): real {
    if deltas == [] then 0.0 else
      var d := deltas[|deltas| - 1];
      Total(deltas[..|deltas| - 1], accountId, asset)
      + if d.accountId == accountId && d.asset == asset then d.amount else 0.0
  }

  /** The unrounded balance. */
  function Exact(s: State, accountId: string, b: Balance): real {
    b.amount + Total(s.deposits, accountId, b.asset) - Total(s.withdrawals, accountId, b.asset)
  }

  function ViewOf(s: State, accountId: string, b: Balance): Balance {
    var pending := Total(s.withdrawals, accountId, b.asset);
    b.(amount := Rounded(Exact(s, accountId, b), Scale(b.decimals)),
       pendingAmount := if pending > 0.0 then Some(Rounded(pending, Scale(b.decimals))) else None)
  }

  function ApplyFundingDeltas(s: State, accountId: string, balances: seq<Balance>): seq<Balance> {
    if accountId == "" then balances
    else seq(|balances|, i requires 0 <= i < |balances| => ViewOf(s, accountId, balances[i]))
  }

  // ---- validation ----

  function AmountError(amount: AmountText, b: Balance, minimum: real): Option<FundingError> {
    match amount
    case Numeric(v) =>
      if v <= 0.0 then Some(NotPositive)
      else if !HasDecimals(v, b.decimals) then Some(TooManyDecimals)
      else if v < minimum then Some(BelowMinimum)
      else None
    case _ => Some(NotANumber)
  }

  function ValidateMockDeposit(balance: Option<Balance>, amount: AmountText): Option<FundingError> {
    if balance.None? then Some(NoAsset)
    else AmountError(amount, balance.value, MinimumDepositFor(balance.value))
  }

  predicate IsHex(c: char) { '0' <= c <= '9' || 'a' <= c <= 'f' || 'A' <= c <= 'F' }

  predicate IsBase58(c: char) {
    || '1' <= c <= '9' || 'A' <= c <= 'H' || 'J' <= c <= 'N' || 'P' <= c <= 'Z'
    || 'a' <= c <= 'k' || 'm' <= c <= 'z'
  }

  function DestinationError(namespace: Namespace, destination: string): Option<FundingError> {
    var d := Trim(destination);
    if d == "" then Some(DestinationMissing)
    else match namespace
      case Evm => if "0x" <= d && |d| == 42 && (forall c <- d[2..] :: IsHex(c)) then None else Some(DestinationInvalid)
      case Solana =>
        if !("0x" <= d) && 32 <= |d| <= 44 && (forall c <- d :: IsBase58(c)) then None else Some(DestinationInvalid)
  }

  datatype WithdrawErrors = WithdrawErrors(destination: Option<FundingError>, amount: Option<FundingError>)

  function ValidateMockWithdrawal(namespace: Option<Namespace>, balance: Option<Balance>,
                                  destination: string, amount: AmountText): WithdrawErrors {
    if balance.None? || namespace.None? then WithdrawErrors(None, Some(NoAsset)) else
      var b := balance.value;
      var own := AmountError(amount, b, MinimumWithdrawFor(b));
      WithdrawErrors(
        DestinationError(namespace.value, destination),
        if own.None? && amount.value > b.amount then Some(ExceedsBalance) else own)
  }

  // ---- the two operations ----

  function PadStart(s: string, width: nat): string
    decreases width - |s|
  {
    if |s| >= width then s else PadStart("0" + s, width)
  }

  function FundingId(prefix: string, b: Balance, sequence: nat): string {
    prefix + "-" + (if b.namespace.Evm? then "EVM" else "SOLANA") + "-" + PadStart(Digits(sequence), 4)
  }

  function Deposit(s: State, accountId: string, b: Balance, amount: AmountText): Result<State, FundingError> {
    var requested := if amount.Empty? then Numeric(SuggestedDepositFor(b)) else amount;
    var error := ValidateMockDeposit(Some(b), requested);
    if error.Some? then Err(error.value) else
      var n := s.sequence + 1;
      Ok(s.(sequence := n,
            deposits := s.deposits + [Delta(accountId, b.asset, requested.value)],
            activity := [Activity("activity-" + FundingId("DEP", b, n), accountId, b.namespace, true)] + s.activity))
  }

  function Withdraw(s: State, accountId: string, b: Balance, amount: AmountText, destination: string)
    : Result<State, FundingError>
  {
    var errors := ValidateMockWithdrawal(Some(b.namespace), Some(b), destination, amount);
    if errors.destination.Some? then Err(errors.destination.value)
    else if errors.amount.Some? then Err(errors.amount.value)
    else
      var n := s.sequence + 1;
      Ok(s.(sequence := n,
            withdrawals := s.withdrawals + [Delta(accountId, b.asset, amount.value)],
            activity := [Activity("activity-" + FundingId("WDR", b, n), accountId, b.namespace, false)] + s.activity))
  }

  // ---- session storage ----

  /** Fields of parsed JSON: `None` is a value of another type or none at all. A `title`
      stands for the texts of an activity. */
  datatype StoredDelta = StoredDelta(accountId: Option<string>, asset: Option<string>, amount: Option<AmountText>)

  datatype StoredActivity = StoredActivity(
    id: Option<string>, accountId: Option<string>, namespace: Option<string>, category: Option<string>,
    title: Option<string>)

  datatype Snapshot = Snapshot(
    sequence: Option<nat>, deposits: Option<seq<StoredDelta>>, withdrawals: Option<seq<StoredDelta>>,
    activity: Option<seq<StoredActivity>>)

  datatype Storage = Nothing | NotARecord | Record(snapshot: Snapshot)

  function NamespaceText(namespace: Namespace): string { if namespace.Evm? then "evm" else "solana" }

  function StoredDeltaOf(d: Delta): StoredDelta {
    StoredDelta(Some(d.accountId), Some(d.asset), Some(Numeric(d.amount)))
  }

  function StoredActivityOf(a: Activity): StoredActivity {
    StoredActivity(Some(a.id), Some(a.accountId), Some(NamespaceText(a.namespace)), Some("funding"),
                   Some(if a.credited then "Deposit" else "Withdraw"))
  }

  function StoredDeltas(deltas: seq<Delta>): seq<StoredDelta> {
    if deltas == [] then [] else StoredDeltas(deltas[..|deltas| - 1]) + [StoredDeltaOf(deltas[|deltas| - 1])]
  }

  function StoredActivities(activity: seq<Activity>): seq<StoredActivity> {
    if activity == [] then []
    else StoredActivities(activity[..|activity| - 1]) + [StoredActivityOf(activity[|activity| - 1])]
  }

  /** What persistFundingSession writes. */
  function SnapshotOf(s: State): Snapshot {
    Snapshot(Some(s.sequence), Some(StoredDeltas(s.deposits)), Some(StoredDeltas(s.withdrawals)),
      Some(StoredActivities(s.activity)))
  }

  /** isFundingDelta: both ids are texts and the amount is the text of a finite number. */
  predicate IsFundingDelta(d: StoredDelta) {
    d.accountId.Some? && d.asset.Some? && d.amount.Some? && d.amount.value.Numeric?
  }

  predicate IsActivityEntry(a: StoredActivity) {
    && a.id.Some? && a.accountId.Some? && a.title.Some?
    && (a.namespace == Some("evm") || a.namespace == Some("solana"))
    && (a.category == Some("funding") || a.category == Some("campaign") || a.category == Some("order"))
  }

  function ReadDelta(d: StoredDelta): Delta
    requires IsFundingDelta(d)
  {
    Delta(d.accountId.value, d.asset.value, d.amount.value.value)
  }

  function ReadActivity(a: StoredActivity): Activity
    requires IsActivityEntry(a)
  {
    Activity(a.id.value, a.accountId.value,
             if a.namespace == Some("evm") then Evm else Solana, a.title == Some("Deposit"))
  }

  /** The items that pass the guard, in order. */
  function ReadDeltas(items: seq<StoredDelta>): seq<Delta> {
    if items == [] then [] else
      var (rest, d) := (ReadDeltas(items[..|items| - 1]), items[|items| - 1]);
      if IsFundingDelta(d) then rest + [ReadDelta(d)] else rest
  }

  function ReadActivities(items: seq<StoredActivity>): seq<Activity> {
    if items == [] then [] else
      var (rest, a) := (ReadActivities(items[..|items| - 1]), items[|items| - 1]);
      if IsActivityEntry(a) then rest + [ReadActivity(a)] else rest
  }

  /** restoreFundingSession; without a snapshot it leaves the stores as they are. */
  function Restored(s: State, storage: Storage): State {
    match storage
    case Nothing => s
    case NotARecord => EMPTY
    case Record(r) =>
      State(if r.sequence.Some? then r.sequence.value else 0,
            if r.deposits.Some? then ReadDeltas(r.deposits.value) else [],
            if r.withdrawals.Some? then ReadDeltas(r.withdrawals.value) else [],
            if r.activity.Some? then ReadActivities(r.activity.value) else [])
  }

  lemma {:induction false} DeltasReadBack(deltas: seq<Delta>)
    ensures ReadDeltas(StoredDeltas(deltas)) == deltas
  {
    if deltas != [] {
      var init := deltas[..|deltas| - 1];
      DeltasReadBack(init);
      assert StoredDeltas(deltas)[..|StoredDeltas(deltas)| - 1] == StoredDeltas(init);
    }
  }

  lemma NamespaceReadsBack(namespace: Namespace)
    ensures NamespaceText(namespace) == "evm" <==> namespace == Evm
    ensures NamespaceText(namespace) == "evm" || NamespaceText(namespace) == "solana"
  {
    assert |"evm"| == 3 && |"solana"| == 6;
  }

  lemma ActivityReadsBack(a: Activity)
    ensures IsActivityEntry(StoredActivityOf(a)) && ReadActivity(StoredActivityOf(a)) == a
  {
    NamespaceReadsBack(a.namespace);
    assert |"Deposit"| == 7 && |"Withdraw"| == 8;
  }

  lemma {:induction false} ActivitiesReadBack(activity: seq<Activity>)
    ensures ReadActivities(StoredActivities(activity)) == activity
  {
    hide IsActivityEntry, ReadActivity, StoredActivityOf;
    if activity != [] {
      var init := activity[..|activity| - 1];
      ActivitiesReadBack(init);
      ActivityReadsBack(activity[|activity| - 1]);
      assert StoredActivities(activity)[..|StoredActivities(activity)| - 1] == StoredActivities(init);
    }
  }

  /** What was written reads back as the state it was written of, over whatever is there. */
  lemma SnapshotRestores(s: State, over: State)
    ensures Restored(over, Record(SnapshotOf(s))) == s
  {
    DeltasReadBack(s.deposits);
    DeltasReadBack(s.withdrawals);
    ActivitiesReadBack(s.activity);
  }

  /** Of any stored list, all is read exactly when every item passes the guard. */
  lemma {:induction false} ReadsAllExactly(items: seq<StoredDelta>)
    ensures |ReadDeltas(items)| <= |items|
    ensures |ReadDeltas(items)| == |items| <==> forall d <- items :: IsFundingDelta(d)
  {
    if items != [] {
      ReadsAllExactly(items[..|items| - 1]);
      assert items == items[..|items| - 1] + [items[|items| - 1]];
    }
  }

  /** Which stored activities are read: four texts, one of the two chains, one of the three
      categories. */
  lemma ActivityGuard(id: string, accountId: string, namespace: string, category: string, title: string)
    ensures IsActivityEntry(StoredActivity(Some(id), Some(accountId), Some(namespace), Some(category), Some(title)))
      <==> namespace in {"evm", "solana"} && category in {"funding", "campaign", "order"}
    ensures forall a: StoredActivity :: IsActivityEntry(a) ==>
      a.id.Some? && a.accountId.Some? && a.title.Some? && a.namespace.Some? && a.category.Some?
  {
  }

  /** Storage that holds nothing leaves the stores alone, and what is no record empties them;
      of a record, what is missing is read as empty. */
  lemma OddStorage(s: State)
    ensures Restored(s, Nothing) == s && Restored(s, NotARecord) == State(0, [], [], [])
    ensures Restored(s, Record(Snapshot(None, None, None, None))) == State(0, [], [], [])
  {
  }

  class FundingStore {
    var fundingSequence: nat
    var creditedDeposits: seq<Delta>
    var pendingWithdrawals: seq<Delta>
    var sessionFundingActivity: seq<Activity>
    var storage: Storage

    ghost function View(): State
      reads this
    {
      State(fundingSequence, creditedDeposits, pendingWithdrawals, sessionFundingActivity)
    }

    /** Storage holds the current state, or nothing has happened yet. */
    ghost predicate Saved()
      reads this
    {
      storage == Record(SnapshotOf(View())) || (storage.Nothing? && View() == EMPTY)
    }

    constructor ()
      ensures View() == EMPTY && Saved()
    {
      fundingSequence, creditedDeposits, pendingWithdrawals, sessionFundingActivity, storage := 0, [], [], [], Nothing;
    }

    method NextSequence() returns (next: nat)
      modifies this`fundingSequence
      ensures next == fundingSequence == old(fundingSequence) + 1
    {
      next := fundingSequence + 1;
      fundingSequence := next;
    }

    method Persist()
      modifies this`storage
      ensures storage == Record(SnapshotOf(View()))
    {
      storage := Record(SnapshotOf(State(fundingSequence, creditedDeposits, pendingWithdrawals,
        sessionFundingActivity)));
    }

    method CompleteMockDeposit(accountId: string, b: Balance, amount: AmountText) returns (error: Option<FundingError>)
      modifies this
      ensures var r := Deposit(old(View()), accountId, b, amount);
        if r.Ok? then error == None && View() == r.value else error == Some(r.error) && View() == old(View())
      ensures old(Saved()) || error.None? ==> Saved()
    {
      var requested := if amount.Empty? then Numeric(SuggestedDepositFor(b)) else amount;
      error := ValidateMockDeposit(Some(b), requested);
      if error.Some? {
        return;
      }
      var sequence := NextSequence();
      creditedDeposits := creditedDeposits + [Delta(accountId, b.asset, requested.value)];
      sessionFundingActivity :=
        [Activity("activity-" + FundingId("DEP", b, sequence), accountId, b.namespace, true)] + sessionFundingActivity;
      Persist();
    }

    method SubmitMockWithdrawal(accountId: string, b: Balance, amount: AmountText, destination: string)
      returns (error: Option<FundingError>)
      modifies this
      ensures var r := Withdraw(old(View()), accountId, b, amount, destination);
        if r.Ok? then error == None && View() == r.value else error == Some(r.error) && View() == old(View())
      ensures old(Saved()) || error.None? ==> Saved()
    {
      var errors := ValidateMockWithdrawal(Some(b.namespace), Some(b), destination, amount);
      if errors.destination.Some? {
        return errors.destination;
      }
      if errors.amount.Some? {
        return errors.amount;
      }
      var sequence := NextSequence();
      pendingWithdrawals := pendingWithdrawals + [Delta(accountId, b.asset, amount.value)];
      sessionFundingActivity :=
        [Activity("activity-" + FundingId("WDR", b, sequence), accountId, b.namespace, false)] + sessionFundingActivity;
      Persist();
      error := None;
    }

    /** A page reload: the stores start empty and the snapshot, whatever it is, is read
        back through the guards; one this store wrote gives back the state exactly. */
    method Reload()
      modifies this
      ensures View() == Restored(EMPTY, old(storage)) && storage == old(storage)
      ensures old(Saved()) ==> View() == old(View()) && Saved()
    {
      SnapshotRestores(View(), EMPTY);
      fundingSequence, creditedDeposits, pendingWithdrawals, sessionFundingActivity := 0, [], [], [];
      match storage {
        case Nothing =>
        case NotARecord =>
        case Record(r) =>
          fundingSequence := if r.sequence.Some? then r.sequence.value else 0;
          creditedDeposits := if r.deposits.Some? then ReadDeltas(r.deposits.value) else [];
          pendingWithdrawals := if r.withdrawals.Some? then ReadDeltas(r.withdrawals.value) else [];
          sessionFundingActivity := if r.activity.Some? then ReadActivities(r.activity.value) else [];
      }
    }
  }

  // ---- runs ----

  /** Deposits and withdrawals by users who are shown the current view. */
  datatype Event =
    | DepositEvent(accountId: string, asset: string, amount: AmountText)
    | WithdrawEvent(accountId: string, asset: string, amount: AmountText, destination: string)

  /** The seed balances, by account and asset. No account has the empty id, which
      stands for no account and is shown the seed balances unchanged. */
  type Seeds = map<(string, string), Balance>

  ghost predicate SeedsOk(seeds: Seeds) {
    forall k <- seeds :: k.0 != "" && seeds[k].asset == k.1 && seeds[k].amount >= 0.0
  }

  /** What the account page shows of one balance. */
  function Shown(s: State, accountId: string, b: Balance): (r: Balance)
    ensures accountId != "" ==> r == ViewOf(s, accountId, b)
  {
    ApplyFundingDeltas(s, accountId, [b])[0]
  }

  function Step(seeds: Seeds, s: State, e: Event): State {
    var key := (e.accountId, e.asset);
    if key !in seeds then s else
      var shown := Shown(s, e.accountId, seeds[key]);
      var r := if e.DepositEvent? then Deposit(s, e.accountId, shown, e.amount)
               else Withdraw(s, e.accountId, shown, e.amount, e.destination);
      if r.Ok? then r.value else s
  }

  function Run(seeds: Seeds, events: seq<Event>): State {
    if events == [] then EMPTY else Step(seeds, Run(seeds, events[..|events| - 1]), events[|events| - 1])
  }

  /** What an event adds to the balance it names: nothing if it is refused. */
  function Moved(seeds: Seeds, s: State, e: Event): real {
    var key := (e.accountId, e.asset);
    if key !in seeds || Step(seeds, s, e) == s then 0.0
    else match e
      case DepositEvent(_, _, amount) => if amount.Numeric? then amount.value else SuggestedDepositFor(seeds[key])
      case WithdrawEvent(_, _, amount, _) => if amount.Numeric? then -amount.value else 0.0
  }

  lemma TotalAppend(deltas: seq<Delta>, d: Delta, accountId: string, asset: string)
    ensures Total(deltas + [d], accountId, asset)
         == Total(deltas, accountId, asset) + if d.accountId == accountId && d.asset == asset then d.amount else 0.0
  {
    assert (deltas + [d])[..|deltas|] == deltas;
  }

  /** Rounding is off by at most half a shown unit, either way. */
  lemma RoundedIsNear(x: real, decimals: nat)
    ensures var r := Rounded(x, Scale(decimals)); x - HalfUnit(decimals) <= r <= x + HalfUnit(decimals)
  {
  }

  lemma AcceptedWithdrawal(s: State, accountId: string, b: Balance, amount: AmountText, destination: string)
    requires Withdraw(s, accountId, b, amount, destination).Ok?
    ensures amount.Numeric? && 0.0 < amount.value <= b.amount && amount.value >= MinimumWithdrawFor(b)
    ensures var s' := Withdraw(s, accountId, b, amount, destination).value;
      s'.deposits == s.deposits && s'.withdrawals == s.withdrawals + [Delta(accountId, b.asset, amount.value)]
  {
    hide DestinationError, FundingId, HasDecimals;
  }

  lemma AcceptedDeposit(s: State, accountId: string, b: Balance, amount: AmountText)
    requires Deposit(s, accountId, b, amount).Ok?
    ensures var s' := Deposit(s, accountId, b, amount).value;
      var added := if amount.Numeric? then amount.value else SuggestedDepositFor(b);
      added > 0.0 && s'.withdrawals == s.withdrawals && s'.deposits == s.deposits + [Delta(accountId, b.asset, added)]
  {
    hide FundingId, HasDecimals;
  }

  lemma DepositStep(seeds: Seeds, s: State, e: Event)
    requires SeedsOk(seeds) && e.DepositEvent?
    ensures var (s', moved) := (Step(seeds, s, e), Moved(seeds, s, e));
      && s'.withdrawals == s.withdrawals
      && if s' == s then moved == 0.0
         else moved > 0.0 && s'.deposits == s.deposits + [Delta(e.accountId, e.asset, moved)]
  {
    hide FundingId, DestinationError, HasDecimals, Deposit, Withdraw, Rounded, Total;
    var at := (e.accountId, e.asset);
    if at in seeds {
      var shown := Shown(s, e.accountId, seeds[at]);
      if Deposit(s, e.accountId, shown, e.amount).Ok? { AcceptedDeposit(s, e.accountId, shown, e.amount); }
    }
  }

  lemma WithdrawStep(seeds: Seeds, s: State, e: Event)
    requires SeedsOk(seeds) && e.WithdrawEvent?
    ensures var (s', moved, at) := (Step(seeds, s, e), Moved(seeds, s, e), (e.accountId, e.asset));
      && s'.deposits == s.deposits
      && if s' == s then moved == 0.0
         else at in seeds && s'.withdrawals == s.withdrawals + [Delta(e.accountId, e.asset, -moved)]
              && 0.0 < -moved <= ViewOf(s, e.accountId, seeds[at]).amount
  {
    hide FundingId, DestinationError, HasDecimals, Deposit, Withdraw, Rounded, Total;
    var at := (e.accountId, e.asset);
    if at in seeds {
      var shown := Shown(s, e.accountId, seeds[at]);
      if Withdraw(s, e.accountId, shown, e.amount, e.destination).Ok? {
        AcceptedWithdrawal(s, e.accountId, shown, e.amount, e.destination);
      }
    }
  }

  /** One step moves the exact balance of its own account and asset by exactly the amount
      asked for, or not at all, and no other; and never down by more than was shown. */
  lemma StepMovesOneBalance(seeds: Seeds, s: State, e: Event, key: (string, string))
    requires SeedsOk(seeds) && key in seeds
    ensures var (before, after) := (Exact(s, key.0, seeds[key]), Exact(Step(seeds, s, e), key.0, seeds[key]));
      && after == before + (if key == (e.accountId, e.asset) then Moved(seeds, s, e) else 0.0)
      && (after >= before || after >= before - Rounded(before, Scale(seeds[key].decimals)))
  {
    hide Step, Moved, Rounded, Total;
    var s' := Step(seeds, s, e);
    if e.DepositEvent? {
      DepositStep(seeds, s, e);
      if s' != s { TotalAppend(s.deposits, Delta(e.accountId, e.asset, Moved(seeds, s, e)), key.0, key.1); }
    } else {
      WithdrawStep(seeds, s, e);
      if s' != s { TotalAppend(s.withdrawals, Delta(e.accountId, e.asset, -Moved(seeds, s, e)), key.0, key.1); }
    }
  }

  /** What a run has added to one balance. */
  function MovedIn(seeds: Seeds, events: seq<Event>, key: (string, string)): real {
    if events == [] then 0.0 else
      var init, e := events[..|events| - 1], events[|events| - 1];
      MovedIn(seeds, init, key) + if key == (e.accountId, e.asset) then Moved(seeds, Run(seeds, init), e) else 0.0
  }

  /** Conservation: in every run, a balance is its seed plus the accepted deposits less
      the accepted withdrawals made on it. */
  lemma {:induction false} RunConservesBalances(seeds: Seeds, events: seq<Event>, key: (string, string))
    requires SeedsOk(seeds) && key in seeds
    ensures Exact(Run(seeds, events), key.0, seeds[key]) == seeds[key].amount + MovedIn(seeds, events, key)
  {
    hide Step, Rounded, ViewOf, Scale, Moved;
    if events == [] {
      assert Exact(EMPTY, key.0, seeds[key]) == seeds[key].amount;
    } else {
      RunConservesBalances(seeds, events[..|events| - 1], key);
      StepMovesOneBalance(seeds, Run(seeds, events[..|events| - 1]), events[|events| - 1], key);
    }
  }

  /** In every run, no account is overdrawn in any asset by more than half a shown unit. */
  lemma {:induction false} NoOverdrawBeyondRounding(seeds: Seeds, events: seq<Event>, key: (string, string))
    requires SeedsOk(seeds) && key in seeds
    ensures Exact(Run(seeds, events), key.0, seeds[key]) >= -HalfUnit(seeds[key].decimals)
  {
    hide Step, Rounded, ViewOf, Scale;
    if events == [] {
      assert Exact(EMPTY, key.0, seeds[key]) == seeds[key].amount;
    } else {
      var init, e := events[..|events| - 1], events[|events| - 1];
      NoOverdrawBeyondRounding(seeds, init, key);
      StepMovesOneBalance(seeds, Run(seeds, init), e, key);
      RoundedIsNear(Exact(Run(seeds, init), key.0, seeds[key]), seeds[key].decimals);
    }
  }

  // ---- when requests are accepted ----

  /** Destinations on EVM chains are `0x` and forty hexadecimal digits, by their codes. */
  lemma EvmDestinations(destination: string)
    ensures var d := Trim(destination);
      DestinationError(Evm, destination) ==
        if d == "" then Some(DestinationMissing)
        else if |d| == 42 && d[0] as int == 48 && d[1] as int == 120 &&
          (forall k | 2 <= k < 42 :: IsHexCode(d[k] as int))
        then None
        else Some(DestinationInvalid)
  {
    hide Trim, IsHex, IsHexCode;
    var d := Trim(destination);
    StartsWith0x(d);
    if |d| == 42 {
      assert forall k | 2 <= k < 42 :: d[k] == d[2..][k - 2];
      forall k | 2 <= k < 42 ensures IsHex(d[k]) <==> IsHexCode(d[k] as int) { HexCodes(d[k]); }
    }
  }

  lemma StartsWith0x(d: string)
    ensures "0x" <= d <==> |d| >= 2 && d[0] as int == 48 && d[1] as int == 120
  {
    assert |"0x"| == 2 && "0x"[0] == '0' && "0x"[1] == 'x';
  }

  /** Destinations on Solana are 32 to 44 letters and digits without zero, capital I and O
      and small l. */
  lemma SolanaDestinations(destination: string)
    ensures var d := Trim(destination);
      DestinationError(Solana, destination) ==
        if d == "" then Some(DestinationMissing)
        else if 32 <= |d| <= 44 && (forall k | 0 <= k < |d| :: IsBase58Code(d[k] as int)) then None
        else Some(DestinationInvalid)
  {
    hide Trim, IsBase58, IsBase58Code;
    var d := Trim(destination);
    StartsWith0x(d);
    forall k | 0 <= k < |d| ensures IsBase58(d[k]) <==> IsBase58Code(d[k] as int) { Base58Codes(d[k]); }
    if "0x" <= d {
      Base58Codes(d[0]);
      ZeroIsNoCode();
      assert d[0] in d;
    }
  }

  lemma ZeroIsNoCode()
    ensures !IsBase58Code(48)
  {
  }

  predicate IsHexCode(code: int) { 48 <= code <= 57 || 65 <= code <= 70 || 97 <= code <= 102 }

  /** 49-57 are the digits from one on; 73, 79 and 108 are I, O and l. */
  predicate IsBase58Code(code: int) {
    (49 <= code <= 57 || 65 <= code <= 90 || 97 <= code <= 122) && code != 73 && code != 79 && code != 108
  }

  lemma HexCodes(c: char)
    ensures IsHex(c) <==> IsHexCode(c as int)
  {
  }

  lemma Base58Codes(c: char)
    ensures IsBase58(c) <==> IsBase58Code(c as int)
  {
  }

  /** Deposits: a cent of ether or solana, and twenty-five of any other asset, at least. */
  lemma DepositAccepted(s: State, accountId: string, b: Balance, x: real)
    ensures var least := if b.symbol == "ETH" || b.symbol == "SOL" then 0.01 else 25.0;
      Deposit(s, accountId, b, Numeric(x)).Ok? <==> x >= least && HasDecimals(x, b.decimals)
    ensures Deposit(s, accountId, b, Empty)
         == Deposit(s, accountId, b, Numeric(if b.symbol == "ETH" || b.symbol == "SOL" then 0.25 else 250.0))
    ensures Deposit(s, accountId, b, Blank) == Deposit(s, accountId, b, NotNumeric) == Err(NotANumber)
  {
    hide HasDecimals, FundingId;
  }

  /** Withdrawals: the same cent, or ten, at least, and at most what is shown. */
  lemma WithdrawalAccepted(s: State, accountId: string, b: Balance, x: real, destination: string)
    ensures var least := if b.symbol == "ETH" || b.symbol == "SOL" then 0.01 else 10.0;
      Withdraw(s, accountId, b, Numeric(x), destination).Ok? <==>
      least <= x <= b.amount && HasDecimals(x, b.decimals) && DestinationError(b.namespace, destination).None?
  {
    hide HasDecimals, FundingId, DestinationError;
  }

  /** Why an amount is refused, in the order of the checks; a destination is checked first. */
  lemma WhyRefused(s: State, accountId: string, b: Balance, x: real, destination: string)
    ensures var least := if b.symbol == "ETH" || b.symbol == "SOL" then 0.01 else 25.0;
      var r := Deposit(s, accountId, b, Numeric(x));
      r.Err? ==> r.error == if x <= 0.0 then NotPositive
                            else if !HasDecimals(x, b.decimals) then TooManyDecimals else BelowMinimum
    ensures var (bad, r) := (DestinationError(b.namespace, destination),
      Withdraw(s, accountId, b, Numeric(x), destination));
      r.Err? ==> r.error == if bad.Some? then bad.value
                            else if x <= 0.0 then NotPositive
                            else if !HasDecimals(x, b.decimals) then TooManyDecimals
                            else if x < (if b.symbol == "ETH" || b.symbol == "SOL" then 0.01
                              else 10.0) then BelowMinimum
                            else ExceedsBalance
  {
    hide HasDecimals, FundingId, DestinationError;
  }

  /** What an accepted request writes: the next number, and one activity under its id. */
  lemma AcceptedWrites(s: State, accountId: string, b: Balance, x: real, destination: string)
    ensures var (r, n) := (Deposit(s, accountId, b, Numeric(x)), s.sequence + 1);
      r.Ok? ==> r.value == State(n, s.deposits + [Delta(accountId, b.asset, x)], s.withdrawals,
        [Activity("activity-" + FundingId("DEP", b, n), accountId, b.namespace, true)] + s.activity)
    ensures var (r, n) := (Withdraw(s, accountId, b, Numeric(x), destination), s.sequence + 1);
      r.Ok? ==> r.value == State(n, s.deposits, s.withdrawals + [Delta(accountId, b.asset, x)],
        [Activity("activity-" + FundingId("WDR", b, n), accountId, b.namespace, false)] + s.activity)
  {
    hide HasDecimals, FundingId, DestinationError;
  }

  /** Withdrawals still pending are shown too, if they come to more than nothing. */
  lemma PendingShown(s: State, accountId: string, b: Balance)
    ensures var (total, shown) := (Total(s.withdrawals, accountId, b.asset), ViewOf(s, accountId, b).pendingAmount);
      (shown == None <==> total <= 0.0)
      && (shown.Some? ==> -HalfUnit(b.decimals) <= shown.value - total <= HalfUnit(b.decimals))
  {
    hide Total, Rounded;
    RoundedIsNear(Total(s.withdrawals, accountId, b.asset), b.decimals);
  }

  /** What a shown amount is rounded to: four decimals for assets of more than six, two for
      the others. */
  lemma ShownDecimals(s: State, accountId: string, b: Balance)
    ensures var (x, shown) := (Exact(s, accountId, b), ViewOf(s, accountId, b).amount);
      if b.decimals >= 7 then IsInteger(shown * 10000.0) && -0.00005 <= shown - x <= 0.00005
      else IsInteger(shown * 100.0) && -0.005 <= shown - x <= 0.005
  {
    hide Total, Rounded;
    RoundedIsWhole(Exact(s, accountId, b));
    RoundedIsNear(Exact(s, accountId, b), b.decimals);
  }

  // ---- ids ----

  lemma {:induction false} PaddedValue(s: string, width: nat)
    requires AllDigits(s)
    ensures AllDigits(PadStart(s, width)) && Value(PadStart(s, width)) == Value(s)
    decreases width - |s|
  {
    if |s| < width {
      LeadingZero(s);
      PaddedValue("0" + s, width);
    }
  }

  lemma {:induction false} LeadingZero(s: string)
    requires AllDigits(s)
    ensures AllDigits("0" + s) && Value("0" + s) == Value(s)
  {
    if s == "" {
      assert Value("0") == 0;
    } else {
      LeadingZero(s[..|s| - 1]);
      assert ("0" + s)[..|s|] == "0" + s[..|s| - 1];
    }
  }

  /** Every request of a session gets an id of its own. */
  lemma FundingIdsDiffer(kind1: string, b1: Balance, n1: nat, kind2: string, b2: Balance, n2: nat)
    requires kind1 in {"DEP", "WDR"} && kind2 in {"DEP", "WDR"}
    requires FundingId(kind1, b1, n1) == FundingId(kind2, b2, n2)
    ensures kind1 == kind2 && b1.namespace == b2.namespace && n1 == n2
  {
    hide PadStart, Digits, Value;
    var (id1, id2) := (FundingId(kind1, b1, n1), FundingId(kind2, b2, n2));
    assert |"DEP"| == 3 && |"WDR"| == 3 && |"EVM"| == 3 && |"SOLANA"| == 6;
    assert id1[..3] == kind1 && id2[..3] == kind2;
    assert id1[4] == (if b1.namespace.Evm? then 'E' else 'S') && id2[4] == (if b2.namespace.Evm? then 'E' else 'S');
    var at := if b1.namespace.Evm? then 8 else 11;
    assert id1[at..] == PadStart(Digits(n1), 4) && id2[at..] == PadStart(Digits(n2), 4);
    PaddedValue(Digits(n1), 4);
    PaddedValue(Digits(n2), 4);
    ValueOfDigits(n1);
    ValueOfDigits(n2);
  }

  // ---- exactly when an overdraft is possible ----

  predicate Withdrawable(s: State, accountId: string, b: Balance, amount: real, destination: string) {
    Withdraw(s, accountId, ViewOf(s, accountId, b), Numeric(amount), destination).Ok?
  }

  lemma {:induction false} FinerGrid(x: real, coarse: nat, fine: nat)
    requires coarse <= fine && HasDecimals(x, coarse)
    ensures HasDecimals(x, fine)
  {
    hide Scaled, IsInteger;
    if coarse < fine {
      FinerGrid(x, coarse, fine - 1);
      ScaledStep(x, fine - 1);
      TenTimesInteger(Scaled(x, fine - 1));
    }
  }

  lemma ScaledStep(x: real, n: nat)
    ensures Scaled(x, n + 1) == 10.0 * Scaled(x, n)
  {
    var p := Pow10(n) as real;
    assert Pow10(n + 1) as real == 10.0 * p;
    assert x * (10.0 * p) == 10.0 * (x * p);
  }

  lemma TenTimesInteger(y: real)
    requires IsInteger(y)
    ensures IsInteger(10.0 * y)
  {
    var k := y.Floor;
    assert 10.0 * (k as real) == (10 * k) as real;
  }

  lemma ScaledByShown(x: real)
    ensures Scaled(x, 2) == x * 100.0 && Scaled(x, 4) == x * 10000.0
  {
    assert Pow10(1) == 10 && Pow10(2) == 100 && Pow10(3) == 1000 && Pow10(4) == 10000;
  }

  lemma RoundedIsWhole(x: real)
    ensures IsInteger(Rounded(x, 100.0) * 100.0) && IsInteger(Rounded(x, 10000.0) * 10000.0)
  {
    var m := if x >= 0.0 then (x * 100.0 + 0.5).Floor else -((-x * 100.0 + 0.5).Floor);
    var n := if x >= 0.0 then (x * 10000.0 + 0.5).Floor else -((-x * 10000.0 + 0.5).Floor);
    assert Rounded(x, 100.0) * 100.0 == m as real;
    assert Rounded(x, 10000.0) * 10000.0 == n as real;
  }

  lemma RoundedHasDecimals(x: real, decimals: nat)
    requires decimals >= 2
    ensures HasDecimals(Rounded(x, Scale(decimals)), decimals)
  {
    hide Rounded, Scaled, IsInteger;
    var r := Rounded(x, Scale(decimals));
    ScaledByShown(r);
    RoundedIsWhole(x);
    FinerGrid(r, if decimals > 6 then 4 else 2, decimals);
  }

  /** With a valid destination: every accepted withdrawal is covered by the exact
      balance exactly when the shown amount is not rounded up, or is below the minimum. */
  lemma OverdraftNeedsRoundingUp(s: State, accountId: string, b: Balance, destination: string)
    requires b.decimals >= 2 && DestinationError(b.namespace, destination).None?
    ensures var shown := Rounded(Exact(s, accountId, b), Scale(b.decimals));
      (forall amount: real :: Withdrawable(s, accountId, b, amount, destination) ==> amount <= Exact(s, accountId, b))
      <==> shown <= Exact(s, accountId, b) || shown < MinimumWithdrawFor(b)
  {
    hide FundingId, DestinationError, HasDecimals, Rounded, Exact;
    var view := ViewOf(s, accountId, b);
    var shown := view.amount;
    forall amount: real | Withdrawable(s, accountId, b, amount, destination)
      ensures MinimumWithdrawFor(b) <= amount <= shown
    {
      AcceptedWithdrawal(s, accountId, view, Numeric(amount), destination);
    }
    RoundedHasDecimals(Exact(s, accountId, b), b.decimals);
    assert shown >= MinimumWithdrawFor(b) ==> Withdrawable(s, accountId, b, shown, destination);
  }

  /** The bound is met: ether of which 4.26005 is held is shown, and paid out, as 4.2601. */
  lemma OverdraftBoundIsMet(accountId: string, ether: Balance, destination: string)
    requires IsNative(ether.symbol) && ether.decimals == 18 && ether.amount == 4.25
    requires DestinationError(ether.namespace, destination).None?
    ensures var credited := Deposit(EMPTY, accountId, ether, Numeric(0.01005));
      && credited.Ok?
      && var paid := Withdraw(credited.value, accountId, ViewOf(credited.value, accountId, ether), Numeric(4.2601),
        destination);
        paid.Ok? && Exact(paid.value, accountId, ether) == -HalfUnit(18)
  {
    hide FundingId, DestinationError, HasDecimals;
    FiveDecimals();
    var s1 := Deposit(EMPTY, accountId, ether, Numeric(0.01005)).value;
    assert Total(s1.deposits, accountId, ether.asset) == 0.01005;
    assert (4.26005 * 10000.0 + 0.5).Floor == 42601;
    assert ViewOf(s1, accountId, ether).amount == 4.2601;
    var s2 := Withdraw(s1, accountId, ViewOf(s1, accountId, ether), Numeric(4.2601), destination).value;
    assert Total(s2.withdrawals, accountId, ether.asset) == 4.2601;
  }

  lemma FiveDecimals()
    ensures HasDecimals(0.01005, 18) && HasDecimals(4.2601, 18)
  {
    assert Pow10(1) == 10 && Pow10(2) == 100 && Pow10(3) == 1000 && Pow10(4) == 10000 && Pow10(5) == 100000;
    assert Scaled(0.01005, 5) == 1005.0 && Scaled(4.2601, 5) == 426010.0;
    FinerGrid(0.01005, 5, 18);
    FinerGrid(4.2601, 5, 18);
  }
}
