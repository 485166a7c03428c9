/** The ledger as it runs: mutations on different balances interleave between their
    checks and their two saves, rebuilds read entries and balance at different times and
    take no lock, and saves may fail. What every such run keeps, and what repeated
    commands do.

    The lookups and checks before the first save are one step. The code spreads them over
    several reads, which makes no difference: a key used in between ends the mutation at
    its save, the entry it reverses exists before anything can name it, and a row changes
    in between only by a new empty row, from which no paused lock could be taken. */
module LedgerRuns {
  import opened BalanceLedger
  import opened LedgerOrderScope
  import opened Outcomes
  import opened Text

  // ---- the machine ----

  /** A mutation that passed its checks: the balance it read, the type of the entry it
      reverses, and its own entry once that is saved. */
  datatype InFlight = InFlight(
    kind: EntryType, cmd: Command, amount: real, scope: Scope, read: Balance,
    reversed: Option<EntryType>, entry: Option<Entry>)

  datatype World = World(db: State, inFlight: map<(string, string), InFlight>)

  const START := World(EMPTY, map[])

  /** `Start` is a mutation up to its last check. Its entry and its balance are two more
      steps; where both are one transaction they follow each other at once. `Fail` ends
      it early. `CreateRow` saves a new row for a reader that found none at `readAt`, and
      `Rebuild` compares entries and row as they were after that many events. A restart
      loses what is kept in memory. */
  datatype Event =
    | Start(kind: EntryType, cmd: Command)
    | SaveEntry(orderId: string, assetId: string, id: string, now: int)
    | SaveBalance(orderId: string, assetId: string)
    | Fail(orderId: string, assetId: string)
    | CreateRow(orderId: string, assetId: string, readAt: nat)
    | Rebuild(orderId: string, assetId: string, entriesAt: nat, rowAt: nat, sorted: seq<Entry>)
    | Pause(orderId: string, assetId: string)
    | Restart

  function Row(w: World, orderId: string, assetId: string): Balance { BalanceOf(w.db, orderId, assetId) }

  /** Whether a command that arrives now passes all checks. */
  predicate Admitted(s: State, kind: EntryType, cmd: Command) {
    && ResolveLedgerOrderScope(cmd.orderId, cmd.userOrderId, cmd.accountLabel).Ok?
    && FindByKey(s.entries, cmd.key).None? && Refusal(s, kind, cmd).None?
  }

  function NewInFlight(s: State, kind: EntryType, cmd: Command): InFlight
    requires Admitted(s, kind, cmd)
  {
    InFlight(kind, cmd, cmd.amount.value,
      ResolveLedgerOrderScope(cmd.orderId, cmd.userOrderId, cmd.accountLabel).value,
      BalanceOf(s, cmd.orderId, cmd.assetId),
      if kind.Reversal? then KindOf(s.entries, cmd.reversalOf) else None, None)
  }

  function DoStart(w: World, kind: EntryType, cmd: Command): World {
    if Admitted(w.db, kind, cmd)
    then w.(inFlight := w.inFlight[(cmd.orderId, cmd.assetId) := NewInFlight(w.db, kind, cmd)])
    else w
  }

  function EntryOf(m: InFlight, id: string, now: int): Entry { NewEntry(m.kind, m.cmd, m.amount, m.scope, id, now) }

  /** The save of the entry; a key that was used meanwhile ends the mutation. */
  function DoSaveEntry(w: World, key: (string, string), id: string, now: int): World {
    if key !in w.inFlight || w.inFlight[key].entry.Some? then w
    else if FindByKey(w.db.entries, w.inFlight[key].cmd.key).Some? then w.(inFlight := w.inFlight - {key})
    else
      var e := EntryOf(w.inFlight[key], id, now);
      World(w.db.(entries := w.db.entries + [e]), w.inFlight[key := w.inFlight[key].(entry := Some(e))])
  }

  function ToWrite(m: InFlight): Balance
    requires m.entry.Some?
  {
    NextFrom(m.read, m.entry.value, m.reversed)
  }

  function DoSaveBalance(w: World, key: (string, string)): World {
    if key !in w.inFlight || w.inFlight[key].entry.None? then w
    else World(w.db.(balances := w.db.balances[key := ToWrite(w.inFlight[key])]), w.inFlight - {key})
  }

  /** One event; `row` is the row a rebuild read. */
  function Step(w: World, row: Balance, e: Event): World {
    match e
    case Start(kind, cmd) => DoStart(w, kind, cmd)
    case SaveEntry(orderId, assetId, id, now) => DoSaveEntry(w, (orderId, assetId), id, now)
    case SaveBalance(orderId, assetId) => DoSaveBalance(w, (orderId, assetId))
    case Fail(orderId, assetId) => w.(inFlight := w.inFlight - {(orderId, assetId)})
    case CreateRow(orderId, assetId, _) =>
      w.(db := w.db.(balances := w.db.balances[(orderId, assetId) := FreshBalance(orderId)]))
    case Rebuild(orderId, assetId, _, _, sorted) => w.(db := AfterRebuild(w.db, orderId, assetId, row, sorted))
    case Pause(orderId, assetId) => w.(db := w.db.(paused := w.db.paused + {LockKey(orderId, assetId)}))
    case Restart => World(w.db.(paused := {}), map[])
  }

  function Run(events: seq<Event>): World
    decreases |events|, 0
  {
    if events == [] then START else
      var init, e := events[..|events| - 1], events[|events| - 1];
      Step(Run(init), RowRead(init, e), e)
  }

  /** The row the rebuild `e` read, if `e` is one. */
  function RowRead(init: seq<Event>, e: Event): Balance
    decreases |init|, 1
  {
    if e.Rebuild? && e.rowAt <= |init| then Row(Run(init[..e.rowAt]), e.orderId, e.assetId) else FreshBalance("")
  }

  /** Random ids are fresh: nothing stored has one or names one before it exists. */
  predicate FreshId(w: World, id: string) {
    && id != ""
    && (forall e <- w.db.entries :: e.entryId != id && e.reversalOf != id)
    && (forall k <- w.inFlight :: w.inFlight[k].cmd.reversalOf != id)
  }

  /** Mutations of one balance queue up, and new ids are fresh. */
  predicate Allowed(w: World, e: Event) {
    && (e.Start? ==> (e.cmd.orderId, e.cmd.assetId) !in w.inFlight)
    && (e.SaveEntry? ==> FreshId(w, e.id))
  }

  predicate Uninterrupted(init: seq<Event>,
                          from: nat) { from <= |init| && forall k | from <= k < |init| :: !init[k].Restart? }

  /** What readers use was there at the time they read it. */
  predicate ReadsAreReal(init: seq<Event>, e: Event) {
    && (e.CreateRow? ==>
        Trim(e.orderId) != "" && Uninterrupted(init, e.readAt)
        && (e.orderId, e.assetId) !in Run(init[..e.readAt]).db.balances)
    && (e.Rebuild? ==>
        && Uninterrupted(init, e.entriesAt) && Uninterrupted(init, e.rowAt)
        && IsSortOf(e.sorted, InScope(Run(init[..e.entriesAt]).db.entries, e.orderId, e.assetId)))
  }

  predicate Legal(events: seq<Event>) {
    events == [] ||
      var init, e := events[..|events| - 1], events[|events| - 1];
      Legal(init) && Allowed(Run(init), e) && ReadsAreReal(init, e)
  }

  /** The world after the first n events. */
  function At(events: seq<Event>, n: nat): World
    requires n <= |events|
  {
    Run(events[..n])
  }

  lemma StepAt(events: seq<Event>, n: nat)
    requires n < |events|
    ensures At(events, n + 1) == Step(At(events, n), RowRead(events[..n], events[n]), events[n])
  {
    hide Step;
    var init := events[..n + 1];
    assert init[..|init| - 1] == events[..n] && init[|init| - 1] == events[n];
  }

  lemma {:induction false} PrefixIsLegal(events: seq<Event>, n: nat)
    requires Legal(events) && n <= |events|
    ensures Legal(events[..n])
    decreases |events|
  {
    hide Allowed, ReadsAreReal, Run;
    if n == |events| {
      assert events[..n] == events;
    } else {
      var init := events[..|events| - 1];
      PrefixIsLegal(init, n);
      assert init[..n] == events[..n];
    }
  }

  lemma LegalAt(events: seq<Event>, n: nat)
    requires Legal(events) && n < |events|
    ensures Allowed(At(events, n), events[n]) && ReadsAreReal(events[..n], events[n])
  {
    hide Allowed, ReadsAreReal, Run;
    PrefixIsLegal(events, n + 1);
    var init := events[..n + 1];
    assert init[..|init| - 1] == events[..n] && init[|init| - 1] == events[n];
  }

  // ---- lists of entries ----

  lemma {:induction false} KindOfAppend(pool: seq<Entry>, e: Entry, id: string)
    requires id != e.entryId
    ensures KindOf(pool + [e], id) == KindOf(pool, id)
  {
    assert (pool + [e])[..|pool|] == pool;
  }

  lemma {:induction false} ChosenAppend(xs: seq<Entry>, e: Entry, side: IdSide, orderId: string, assetId: string)
    ensures Chosen(xs + [e], side, orderId, assetId)
         == Chosen(xs, side, orderId, assetId) + if IsFor(e, side, orderId, assetId) then [e] else []
  {
    assert (xs + [e])[..|xs|] == xs;
  }

  lemma {:induction false} ChosenMembers(xs: seq<Entry>, side: IdSide, orderId: string, assetId: string)
    ensures forall x :: x in Chosen(xs, side, orderId, assetId) <==> x in xs && IsFor(x, side, orderId, assetId)
  {
    hide IsFor;
    if xs != [] {
      ChosenMembers(xs[..|xs| - 1], side, orderId, assetId);
      assert xs == xs[..|xs| - 1] + [xs[|xs| - 1]];
    }
  }

  // ---- what every run keeps ----

  ghost predicate EntryOk(e: Entry) {
    && e.entryId != "" && e.amount != 0.0
    && e.content.assetId == e.assetId && e.content.amount == Some(e.amount) && e.content.kind == e.kind
    && e.scope.ledgerOrderId == Trim(e.content.orderId)
  }

  ghost predicate EntriesOk(xs: seq<Entry>) {
    && (forall e <- xs :: EntryOk(e))
    && (forall i, j | 0 <= i < j < |xs| :: xs[i].key != xs[j].key)
    && (forall i, j | 0 <= i < j < |xs| :: xs[i].entryId != xs[j].entryId)
  }

  lemma {:induction false} KindOfMember(xs: seq<Entry>, x: Entry)
    requires x in xs && x.entryId != "" && forall y <- xs :: y.entryId == x.entryId ==> y == x
    ensures KindOf(xs, x.entryId) == Some(x.kind)
  {
    var n := |xs| - 1;
    assert xs == xs[..n] + [xs[n]];
    assert xs[n] in xs;
    if xs[n].entryId != x.entryId { KindOfMember(xs[..n], x); }
  }

  lemma {:induction false} KindOfStranger(xs: seq<Entry>, id: string)
    requires forall y <- xs :: y.entryId != id
    ensures KindOf(xs, id) == None
  {
    if xs != [] {
      assert xs[|xs| - 1] in xs;
      KindOfStranger(xs[..|xs| - 1], id);
    }
  }

  lemma OneWithId(xs: seq<Entry>, x: Entry)
    requires EntriesOk(xs) && x in xs
    ensures x.entryId != "" && forall y <- xs :: y.entryId == x.entryId ==> y == x
  {
    hide Trim;
    assert EntryOk(x);
  }

  ghost predicate Checked(m: InFlight) {
    && m.amount != 0.0 && m.cmd.amount == Some(m.amount) && m.scope.ledgerOrderId == Trim(m.cmd.orderId)
    && ValidBalance(m.read)
    && m.read.books.funds.Plus(Effect(m.kind, SignedAmount(m.kind, m.amount))).NonNegative()
  }

  ghost predicate InFlightOk(s: State, key: (string, string), m: InFlight) {
    && Checked(m) && m.cmd.orderId == key.0 && m.cmd.assetId == key.1
    && m.reversed == (if m.kind.Reversal? then KindOf(s.entries, m.cmd.reversalOf) else None)
    && (m.entry.Some? ==>
        m.entry.value in s.entries && m.entry.value == EntryOf(m, m.entry.value.entryId, m.entry.value.createdAt))
  }

  ghost predicate Inv(w: World) {
    && Valid(w.db) && EntriesOk(w.db.entries)
    && forall k <- w.inFlight :: InFlightOk(w.db, k, w.inFlight[k])
  }

  lemma ResolvedId(cmd: Command)
    requires ResolveLedgerOrderScope(cmd.orderId, cmd.userOrderId, cmd.accountLabel).Ok?
    ensures ResolveLedgerOrderScope(cmd.orderId, cmd.userOrderId,
      cmd.accountLabel).value.ledgerOrderId == Trim(cmd.orderId)
  {
    hide Trim, EndsWith, LastColon;
  }

  lemma NewInFlightIsOk(s: State, kind: EntryType, cmd: Command)
    requires Valid(s) && Admitted(s, kind, cmd)
    ensures InFlightOk(s, (cmd.orderId, cmd.assetId), NewInFlight(s, kind, cmd))
  {
    hide Trim, ResolveTrimmed, FindByKey, KindOf, FreshBalance, Effect;
    ResolvedId(cmd);
    BalanceIsValid(s, cmd.orderId, cmd.assetId);
  }

  lemma ToWriteIsValid(s: State, key: (string, string), m: InFlight)
    requires InFlightOk(s, key, m) && m.entry.Some?
    ensures ValidBalance(ToWrite(m))
  {
    hide Trim, KindOf, Effect, Realized, NextFee;
  }

  lemma NewEntryIsOk(s: State, key: (string, string), m: InFlight, id: string, now: int)
    requires InFlightOk(s, key, m) && id != ""
    ensures EntryOk(EntryOf(m, id, now))
  {
    hide Trim, KindOf;
  }

  lemma EntriesOkAppend(xs: seq<Entry>, e: Entry)
    requires EntriesOk(xs) && EntryOk(e)
    requires forall x <- xs :: x.key != e.key && x.entryId != e.entryId
    ensures EntriesOk(xs + [e])
  {
    hide EntryOk;
  }

  lemma InFlightStaysOk(s: State, e: Entry, key: (string, string), m: InFlight)
    requires InFlightOk(s, key, m) && m.cmd.reversalOf != e.entryId
    ensures InFlightOk(s.(entries := s.entries + [e]), key, m)
  {
    hide Checked;
    KindOfAppend(s.entries, e, m.cmd.reversalOf);
  }

  lemma SaveEntryKeepsInv(w: World, key: (string, string), id: string, now: int)
    requires Inv(w) && FreshId(w, id)
    ensures Inv(DoSaveEntry(w, key, id, now))
  {
    hide EntriesOk, InFlightOk, EntryOf, FindByKey;
    var w' := DoSaveEntry(w, key, id, now);
    if key in w.inFlight && w.inFlight[key].entry.None? && FindByKey(w.db.entries, w.inFlight[key].cmd.key).None? {
      var m := w.inFlight[key];
      var e := EntryOf(m, id, now);
      NewEntryFields(m, id, now);
      FoundByKey(w.db.entries, m.cmd.key);
      NewEntryIsOk(w.db, key, m, id, now);
      EntriesOkAppend(w.db.entries, e);
      forall k | k in w'.inFlight ensures InFlightOk(w'.db, k, w'.inFlight[k]) {
        InFlightStaysOk(w.db, e, k, w.inFlight[k]);
        if k == key { SavedIsOk(w'.db, key, m, id, now); }
      }
    }
  }

  lemma NewEntryFields(m: InFlight, id: string, now: int)
    ensures var e := EntryOf(m, id, now);
      && e.entryId == id && e.createdAt == now && e.key == m.cmd.key && e.kind == m.kind && e.userId == m.cmd.userId
      && e.amount == SignedAmount(m.kind, m.amount) && e.reversalOf == m.cmd.reversalOf && e.scope == m.scope
      && e.assetId == m.cmd.assetId && e.content == ContentOf(m.kind, m.cmd, Some(e.amount))
  {
  }

  lemma SavedIsOk(s: State, key: (string, string), m: InFlight, id: string, now: int)
    requires InFlightOk(s, key, m) && EntryOf(m, id, now) in s.entries
    ensures InFlightOk(s, key, m.(entry := Some(EntryOf(m, id, now))))
  {
  }

  lemma StepKeepsInv(w: World, row: Balance, e: Event)
    requires Inv(w) && Allowed(w, e)
    ensures Inv(Step(w, row, e)) && w.db.entries <= Step(w, row, e).db.entries
  {
    hide EntriesOk, Checked, Admitted, NewInFlight, EntryOf, FindByKey, KindOf, ToWrite, ValidBalance, RebuildMatches,
      FreshId;
    match e
    case Start(kind, cmd) => if Admitted(w.db, kind, cmd) { NewInFlightIsOk(w.db, kind, cmd); }
    case SaveEntry(orderId, assetId, id, now) => SaveEntryKeepsInv(w, (orderId, assetId), id, now);
    case SaveBalance(orderId, assetId) =>
      var key := (orderId, assetId);
      if key in w.inFlight && w.inFlight[key].entry.Some? { ToWriteIsValid(w.db, key, w.inFlight[key]); }
    case CreateRow(orderId, assetId, _) => BalanceIsValid(EMPTY, orderId, assetId);
    case Fail(_, _) =>
    case Rebuild(_, _, _, _, _) =>
    case Pause(_, _) =>
    case Restart =>
  }

  /** In every run: idempotency keys and entry ids stay unique, no part of a balance is
      negative, and the total is the sum of the parts. */
  lemma {:induction false} RunKeepsInv(events: seq<Event>)
    requires Legal(events)
    ensures Inv(Run(events))
  {
    hide Step, Inv, Allowed, ReadsAreReal;
    if events == [] {
      StartIsOk();
    } else {
      var init, e := events[..|events| - 1], events[|events| - 1];
      RunKeepsInv(init);
      StepKeepsInv(Run(init), RowRead(init, e), e);
    }
  }

  lemma StartIsOk()
    ensures Inv(START)
  {
  }

  lemma InvAt(events: seq<Event>, n: nat)
    requires Legal(events) && n <= |events|
    ensures Inv(At(events, n))
  {
    hide Legal, Run, Inv;
    PrefixIsLegal(events, n);
    RunKeepsInv(events[..n]);
  }

  /** Entries are only ever added, at the end. */
  lemma {:induction false} EntriesOnlyGrow(events: seq<Event>, m: nat, n: nat)
    requires Legal(events) && m <= n <= |events|
    ensures At(events, m).db.entries <= At(events, n).db.entries
    decreases n
  {
    hide Legal, Run, Inv, Step, Allowed, ReadsAreReal;
    if m < n {
      EntriesOnlyGrow(events, m, n - 1);
      InvAt(events, n - 1);
      LegalAt(events, n - 1);
      StepAt(events, n - 1);
      StepKeepsInv(At(events, n - 1), RowRead(events[..n - 1], events[n - 1]), events[n - 1]);
    }
  }

  // ---- a whole mutation ----

  /** Its three steps with nothing in between do what the service's method does. */
  lemma StepsMakeApply(w: World, row: Balance, kind: EntryType, cmd: Command, id: string, now: int)
    requires Inv(w) && (cmd.orderId, cmd.assetId) !in w.inFlight
    ensures var (s', out) := Apply(w.db, kind, cmd, id, now);
      var started := Step(w, row, Start(kind, cmd));
      var saved := Step(started, row, SaveEntry(cmd.orderId, cmd.assetId, id, now));
      && (out.Applied? <==> started != w)
      && Step(saved, row, SaveBalance(cmd.orderId, cmd.assetId)) == World(s', w.inFlight)
  {
    hide Refusal, KindOf, FindByKey, ResolveLedgerOrderScope, FreshBalance, Effect, Inv;
    var key := (cmd.orderId, cmd.assetId);
    if Admitted(w.db, kind, cmd) {
      var m := NewInFlight(w.db, kind, cmd);
      var e := EntryOf(m, id, now);
      var started := Step(w, row, Start(kind, cmd));
      assert started.inFlight[key] == m && key in started.inFlight;
      var saved := Step(started, row, SaveEntry(cmd.orderId, cmd.assetId, id, now));
      assert saved == World(w.db.(entries := w.db.entries + [e]), w.inFlight[key := m][key := m.(entry := Some(e))]);
      PostIgnores(m.read.books, e.kind, e.amount, m.reversed, KindOf(w.db.entries, e.reversalOf));
      assert w.inFlight[key := m][key := m.(entry := Some(e))] - {key} == w.inFlight;
    }
  }

  /** Only a reversal looks at the entry it reverses. */
  lemma PostIgnores(b: Books, kind: EntryType, amount: real, r1: Option<EntryType>, r2: Option<EntryType>)
    requires kind.Reversal? ==> r1 == r2
    ensures Post(b, kind, amount, r1) == Post(b, kind, amount, r2)
  {
  }

  // ---- a repeated command ----

  lemma FindByKeyIsThe(xs: seq<Entry>, e: Entry)
    requires EntriesOk(xs) && e in xs
    ensures FindByKey(xs, e.key) == Some(e)
  {
    hide EntryOk, FindByKey;
    FoundByKey(xs, e.key);
  }

  /** Whether event `e` saves an entry, and which. */
  predicate Saves(w: World, e: Event) {
    && e.SaveEntry? && (e.orderId, e.assetId) in w.inFlight && w.inFlight[(e.orderId, e.assetId)].entry.None?
    && FindByKey(w.db.entries, w.inFlight[(e.orderId, e.assetId)].cmd.key).None?
  }

  function SavedEntry(w: World, e: Event): Entry
    requires Saves(w, e)
  {
    EntryOf(w.inFlight[(e.orderId, e.assetId)], e.id, e.now)
  }

  lemma SavedStays(events: seq<Event>, n: nat)
    requires Legal(events) && n < |events| && Saves(At(events, n), events[n])
    ensures SavedEntry(At(events, n), events[n]) in Run(events).db.entries
  {
    hide Legal, Run, Inv, Allowed, ReadsAreReal, FindByKey, EntryOf;
    StepAt(events, n);
    EntriesOnlyGrow(events, n + 1, |events|);
    assert events[..|events|] == events;
    var xs, e := At(events, n).db.entries, SavedEntry(At(events, n), events[n]);
    assert At(events, n + 1).db.entries == xs + [e];
    assert (xs + [e])[|xs|] == e;
  }

  /** A command whose entry was saved, sent again at any later time and after whatever
      else: nothing changes, and it is reported as already applied exactly when it is
      not a gas debit. A repeated gas debit is refused as a conflict, because its stored
      amount was negated and the amount it is compared by is not. */
  lemma RetryAppliesOnce(events: seq<Event>, n: nat, id: string, now: int)
    requires Legal(events) && n < |events| && Saves(At(events, n), events[n])
    ensures var m := At(events, n).inFlight[(events[n].orderId, events[n].assetId)];
      var s := Run(events).db;
      Apply(s, m.kind, m.cmd, id, now) ==
        (s, if m.kind == GasDebit then Refused(IdempotencyConflict)
            else Replayed(SavedEntry(At(events, n), events[n]), BalanceOf(s, m.cmd.orderId, m.cmd.assetId)))
  {
    hide Legal, Run, At, Inv, Allowed, ReadsAreReal, Apply, SavedEntry, BalanceOf, EntriesOk, Resolved, Valid,
      FindByKey;
    SavedStays(events, n);
    RunKeepsInv(events);
    InvMeans(Run(events));
    InvAt(events, n);
    StartedIsResolved(events, n, (events[n].orderId, events[n].assetId));
    RetryInState(Run(events).db, At(events, n), events[n], id, now);
  }

  lemma InvMeans(w: World)
    requires Inv(w)
    ensures EntriesOk(w.db.entries) && Valid(w.db)
  {
    hide EntriesOk;
  }

  lemma RetryInState(s: State, w: World, e: Event, id: string, now: int)
    requires EntriesOk(s.entries) && Inv(w) && Saves(w, e) && SavedEntry(w, e) in s.entries
    requires Resolved(w.inFlight[(e.orderId, e.assetId)].cmd)
    ensures var m := w.inFlight[(e.orderId, e.assetId)];
      Apply(s, m.kind, m.cmd, id, now) ==
        (s, if m.kind == GasDebit then Refused(IdempotencyConflict)
            else Replayed(SavedEntry(w, e), BalanceOf(s, m.cmd.orderId, m.cmd.assetId)))
  {
    hide FindByKey, BalanceOf, Refusal, ResolveLedgerOrderScope, EntriesOk, KindOf, EntryOf, NewEntry, NextBalance;
    var key := (e.orderId, e.assetId);
    var m := w.inFlight[key];
    assert InFlightOk(w.db, key, m);
    FindByKeyIsThe(s.entries, SavedEntry(w, e));
    NewEntryFields(m, e.id, e.now);
  }

  predicate Resolved(cmd: Command) { ResolveLedgerOrderScope(cmd.orderId, cmd.userOrderId, cmd.accountLabel).Ok? }

  lemma {:induction false} StartedIsResolved(events: seq<Event>, n: nat, key: (string, string))
    requires Legal(events) && n <= |events| && key in At(events, n).inFlight
    ensures Resolved(At(events, n).inFlight[key].cmd)
    decreases n
  {
    hide Legal, Run, Inv, Allowed, ReadsAreReal, FindByKey, Refusal, ResolveLedgerOrderScope, FreshBalance, KindOf,
      EntryOf, ToWrite;
    if n == 0 {
      assert events[..0] == [];
      assert Run([]) == START by { RunOfNothing(); }
    } else {
      StepAt(events, n - 1);
      if key in At(events, n - 1).inFlight { StartedIsResolved(events, n - 1, key); }
    }
  }

  lemma RunOfNothing()
    ensures Run([]) == START
  {
  }

  /** A used key never adds an entry, whatever the new command says and wherever it is
      in its steps. */
  lemma UsedKeyNeverApplies(events: seq<Event>, used: Entry, row: Balance, next: Event)
    requires Legal(events) && used in Run(events).db.entries && Allowed(Run(events), next)
    ensures var (w, w') := (Run(events), Step(Run(events), row, next));
      forall e <- w'.db.entries :: e.key == used.key ==> e in w.db.entries
    ensures forall kind, cmd: Command, id, now | cmd.key == used.key ::
      Apply(Run(events).db, kind, cmd, id, now).0 == Run(events).db
  {
    hide Legal, Run, Allowed, EntryOf, Refusal, ResolveLedgerOrderScope, FindByKey, KindOf, RebuildMatches, Checked;
    RunKeepsInv(events);
    var w := Run(events);
    FindByKeyIsThe(w.db.entries, used);
    if Saves(w, next) {
      var m := w.inFlight[(next.orderId, next.assetId)];
      NewEntryFields(m, next.id, next.now);
      FindByKeyIsThe(w.db.entries, used);
    }
  }

  /** A deposit under a new key is never refused, in any reachable state and for any order
      id that is not blank, and changes its own balance by exactly its amount. */
  lemma DepositsAlwaysApply(events: seq<Event>, cmd: Command, id: string, now: int)
    requires Legal(events) && Trim(cmd.orderId) != ""
    requires cmd.amount.Some? && cmd.amount.value > 0.0 && forall e <- Run(events).db.entries :: e.key != cmd.key
    ensures var s := Run(events).db;
      var (s', out) := Apply(s, DepositCredit, cmd, id, now);
      && out.Applied? && out.balance.total == BalanceOf(s, cmd.orderId, cmd.assetId).total + cmd.amount.value
      && forall orderId, assetId | (orderId, assetId) != (cmd.orderId, cmd.assetId) ::
           BalanceOf(s', orderId, assetId) == BalanceOf(s, orderId, assetId)
  {
    hide Legal, Run, FindByKey, EntriesOk, KindOf, FreshBalance, ResolveTrimmed, Valid, Trim, InFlightOk, Refusal;
    RunKeepsInv(events);
    DepositInState(Run(events).db, cmd, id, now);
  }

  lemma DepositInState(s: State, cmd: Command, id: string, now: int)
    requires Valid(s) && Trim(cmd.orderId) != ""
    requires cmd.amount.Some? && cmd.amount.value > 0.0 && forall e <- s.entries :: e.key != cmd.key
    ensures var (s', out) := Apply(s, DepositCredit, cmd, id, now);
      && out.Applied? && Admitted(s, DepositCredit, cmd)
      && out.balance.total == BalanceOf(s, cmd.orderId, cmd.assetId).total + cmd.amount.value
      && forall orderId, assetId | (orderId, assetId) != (cmd.orderId, cmd.assetId) ::
           BalanceOf(s', orderId, assetId) == BalanceOf(s, orderId, assetId)
  {
    hide FindByKey, KindOf, FreshBalance, ResolveTrimmed, Valid, Trim, NormalizeAccountLabel;
    BalanceIsValid(s, cmd.orderId, cmd.assetId);
    FoundByKey(s.entries, cmd.key);
    assert Refusal(s, DepositCredit, cmd).None?;
  }
}
