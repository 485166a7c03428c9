/** server/src/modules/setup/setup.service.ts: the first-run wizard, one row of state. */
module Setup {
  import opened Outcomes
  import opened Text

  /** The `setup_state` row; times are in milliseconds. */
  datatype Row = Row(initialized: bool, completedSteps: set<string>, seededAt: Option<nat>, completedAt: Option<nat>)

  const NEW_ROW := Row(false, {}, None, None)

  /** How many rows the five seed tables hold. */
  datatype Counts = Counts(exchanges: nat, pairs: nat, tokens: nat, customConfig: nat, strategies: nat)

  datatype State = State(row: Option<Row>, hasPassword: bool, counts: Counts)

  datatype SetupError =
    | AlreadyCompleted | PasswordAlreadySet | NotInitialized | InvalidStep | SeedFailed
    | MissingSteps(steps: set<string>) | ValuesRequired | UnsupportedKey | NoValues

  function RowOf(s: State): Row {
    var row := if s.row.Some? then s.row.value else NEW_ROW;
    if !row.initialized && s.hasPassword
    then row.(initialized := true, completedSteps := row.completedSteps + {"password"})
    else row
  }

  predicate SeedRequired(c: Counts) {
    c.exchanges == 0 || c.pairs == 0 || c.tokens == 0 || c.customConfig == 0 || c.strategies == 0
  }

  predicate IsStepChar(c: char) { 'a' <= c <= 'z' || '0' <= c <= '9' || c == '_' || c == '-' }

  predicate IsStep(step: string) { 1 <= |step| <= 64 && forall c <- step :: IsStepChar(c) }

  function Missing(row: Row, c: Counts): set<string> {
    (if "password" in row.completedSteps then {} else {"password"})
    + (if "exchange" in row.completedSteps then {} else {"exchange"})
    + (if SeedRequired(c) then {"seed"} else {})
  }

  /** A request; the clock, the seeding and the submitted values are inputs. */
  datatype Request =
    | GetStatus
    | SetPassword
    | SeedDatabase(succeeds: bool, now: nat)
    | CompleteStep(step: string)
    | CompleteSetup(now: nat)
    | WriteEnvValues(values: Option<seq<(string, string)>>)

  predicate Supported(allowed: set<string>, values: seq<(string, string)>) { forall v <- values :: v.0 in allowed }

  predicate AllEmpty(values: seq<(string, string)>) { forall v <- values :: v.1 == "" }

  /** Why a request is refused on the row that getState returns. */
  function Refusal(allowed: set<string>, row: Row, c: Counts, r: Request): Option<SetupError> {
    match r
    case GetStatus => None
    case SetPassword =>
      if row.completedAt.Some? then Some(AlreadyCompleted)
      else if row.initialized then Some(PasswordAlreadySet)
      else None
    case CompleteStep(step) => if !IsStep(Trim(step)) then Some(InvalidStep) else Closed(row)
    case SeedDatabase(succeeds, _) =>
      if Closed(row).Some? then Closed(row) else if succeeds then None else Some(SeedFailed)
    case CompleteSetup(_) =>
      if Closed(row).Some? then Closed(row)
      else if Missing(row, c) != {} then Some(MissingSteps(Missing(row, c)))
      else None
    case WriteEnvValues(values) =>
      if Closed(row).Some? then Closed(row)
      else if values.None? then Some(ValuesRequired)
      else if !Supported(allowed, values.value) then Some(UnsupportedKey)
      else if AllEmpty(values.value) then Some(NoValues)
      else None
  }

  /** assertInitialized, then assertIncomplete. */
  function Closed(row: Row): Option<SetupError> {
    if !row.initialized then Some(NotInitialized) else if row.completedAt.Some? then Some(AlreadyCompleted) else None
  }

  function Accepted(row: Row, r: Request): Row {
    match r
    case GetStatus => row
    case SetPassword => row.(initialized := true, completedSteps := row.completedSteps + {"password"})
    case CompleteStep(step) => row.(completedSteps := row.completedSteps + {Trim(step)})
    case SeedDatabase(_, now) => row.(seededAt := Some(now), completedSteps := row.completedSteps + {"seed"})
    case CompleteSetup(now) => row.(completedAt := Some(now), completedSteps := row.completedSteps + {"complete"})
    case WriteEnvValues(_) => row.(completedSteps := row.completedSteps + {"env"})
  }

  /** Whether getState came before the request was refused: a malformed step name is not looked up. */
  predicate ReadsState(r: Request) { r.CompleteStep? ==> IsStep(Trim(r.step)) }

  function Handle(allowed: set<string>, s: State, r: Request): State {
    if !ReadsState(r) then s else
      var row := RowOf(s);
      var accepted := Refusal(allowed, row, s.counts, r).None?;
      s.(row := Some(if accepted then Accepted(row, r) else row),
         hasPassword := s.hasPassword || (accepted && r.SetPassword?))
  }

  class SetupService {
    const allowedEnvKeys: set<string>
    var row: Option<Row>
    var hasPassword: bool
    var counts: Counts

    ghost function View(): State
      reads this
    {
      State(row, hasPassword, counts)
    }

    constructor (allowedEnvKeys: set<string>, hasPassword: bool, counts: Counts)
      ensures View() == State(None, hasPassword, counts) && this.allowedEnvKeys == allowedEnvKeys
    {
      this.allowedEnvKeys, row, this.hasPassword, this.counts := allowedEnvKeys, None, hasPassword, counts;
    }

    method GetState() returns (state: Row)
      modifies this`row
      ensures state == RowOf(old(View())) && row == Some(state)
    {
      state := if row.Some? then row.value else Row(false, {}, None, None);
      if !state.initialized && hasPassword {
        state := state.(initialized := true, completedSteps := state.completedSteps + {"password"});
      }
      row := Some(state);
    }

    method DoSetPassword() returns (error: Option<SetupError>)
      modifies this
      ensures View() == Handle(allowedEnvKeys, old(View()), SetPassword)
      ensures error == Refusal(allowedEnvKeys, RowOf(old(View())), old(counts), SetPassword)
    {
      var state := GetState();
      if state.completedAt.Some? {
        return Some(AlreadyCompleted);
      }
      if state.initialized {
        return Some(PasswordAlreadySet);
      }
      hasPassword := true;
      row := Some(state.(initialized := true, completedSteps := state.completedSteps + {"password"}));
      return None;
    }

    method DoSeedDatabase(succeeds: bool, now: nat) returns (error: Option<SetupError>)
      modifies this
      ensures View() == Handle(allowedEnvKeys, old(View()), SeedDatabase(succeeds, now))
      ensures error == Refusal(allowedEnvKeys, RowOf(old(View())), old(counts), SeedDatabase(succeeds, now))
    {
      var state := GetState();
      if !state.initialized {
        return Some(NotInitialized);
      }
      if state.completedAt.Some? {
        return Some(AlreadyCompleted);
      }
      if !succeeds {
        return Some(SeedFailed);
      }
      row := Some(state.(seededAt := Some(now), completedSteps := state.completedSteps + {"seed"}));
      return None;
    }

    method DoCompleteStep(step: string) returns (error: Option<SetupError>)
      modifies this
      ensures View() == Handle(allowedEnvKeys, old(View()), CompleteStep(step))
      ensures error == Refusal(allowedEnvKeys, RowOf(old(View())), old(counts), CompleteStep(step))
    {
      var normalized := Trim(step);
      if !IsStep(normalized) {
        return Some(InvalidStep);
      }
      var state := GetState();
      if !state.initialized {
        return Some(NotInitialized);
      }
      if state.completedAt.Some? {
        return Some(AlreadyCompleted);
      }
      row := Some(state.(completedSteps := state.completedSteps + {normalized}));
      return None;
    }

    method DoCompleteSetup(now: nat) returns (error: Option<SetupError>)
      modifies this
      ensures View() == Handle(allowedEnvKeys, old(View()), CompleteSetup(now))
      ensures error == Refusal(allowedEnvKeys, RowOf(old(View())), old(counts), CompleteSetup(now))
    {
      var state := GetState();
      if !state.initialized {
        return Some(NotInitialized);
      }
      if state.completedAt.Some? {
        return Some(AlreadyCompleted);
      }
      var missing: set<string> := {};
      if "password" !in state.completedSteps {
        missing := missing + {"password"};
      }
      if "exchange" !in state.completedSteps {
        missing := missing + {"exchange"};
      }
      if SeedRequired(counts) {
        missing := missing + {"seed"};
      }
      assert missing == Missing(state, counts);
      if missing != {} {
        return Some(MissingSteps(missing));
      }
      row := Some(state.(completedAt := Some(now), completedSteps := state.completedSteps + {"complete"}));
      return None;
    }

    /** The values that are not empty are kept for the configuration service. */
    method DoWriteEnvValues(values: Option<seq<(string, string)>>) returns (error: Option<SetupError>,
                            sanitized: seq<(string, string)>)
      modifies this
      ensures View() == Handle(allowedEnvKeys, old(View()), WriteEnvValues(values))
      ensures error == Refusal(allowedEnvKeys, RowOf(old(View())), old(counts), WriteEnvValues(values))
      ensures error.None? ==> sanitized != [] && forall v :: v in sanitized <==> v in values.value && v.1 != ""
    {
      sanitized := [];
      var state := GetState();
      if !state.initialized {
        return Some(NotInitialized), [];
      }
      if state.completedAt.Some? {
        return Some(AlreadyCompleted), [];
      }
      if values.None? {
        return Some(ValuesRequired), [];
      }
      for i := 0 to |values.value|
        invariant row == Some(state) && hasPassword == old(hasPassword) && counts == old(counts)
        invariant Supported(allowedEnvKeys, values.value[..i])
        invariant forall v :: v in sanitized <==> v in values.value[..i] && v.1 != ""
      {
        var (key, value) := values.value[i];
        assert values.value[..i + 1] == values.value[..i] + [(key, value)];
        if key !in allowedEnvKeys {
          assert values.value[i] in values.value;
          return Some(UnsupportedKey), [];
        }
        if value != "" {
          sanitized := sanitized + [(key, value)];
        }
      }
      assert values.value[..|values.value|] == values.value;
      if sanitized == [] {
        return Some(NoValues), [];
      }
      assert sanitized[0] in sanitized;
      row := Some(state.(completedSteps := state.completedSteps + {"env"}));
      error := None;
    }
  }

  // ---- runs ----

  /** Requests, and what may change around the wizard. */
  datatype Event = Ask(request: Request) | TablesChange(counts: Counts) | PasswordSourceChanges(hasPassword: bool)

  function Step(allowed: set<string>, s: State, e: Event): State {
    match e
    case Ask(r) => Handle(allowed, s, r)
    case TablesChange(counts) => s.(counts := counts)
    case PasswordSourceChanges(hasPassword) => s.(hasPassword := hasPassword)
  }

  function Run(allowed: set<string>, s: State, events: seq<Event>): State {
    if events == [] then s else Step(allowed, Run(allowed, s, events[..|events| - 1]), events[|events| - 1])
  }

  /** The row in store, if there is one, as a row. */
  function Stored(s: State): Row { if s.row.Some? then s.row.value else NEW_ROW }

  predicate Ordered(row: Row) {
    && (row.initialized ==> "password" in row.completedSteps)
    && (row.completedAt.Some? ==> row.initialized && {"password", "exchange", "complete"} <= row.completedSteps)
  }

  /** What is done is never undone. */
  predicate Extends(before: Row, after: Row) {
    && before.completedSteps <= after.completedSteps
    && (before.initialized ==> after.initialized)
    && (before.seededAt.Some? ==> after.seededAt.Some?)
    && (before.completedAt.Some? ==> after == before)
  }

  /** The five tables were non-empty when the wizard was completed. */
  predicate CompletedOnSeed(before: State, after: State) {
    Stored(before).completedAt.None? && Stored(after).completedAt.Some? ==> !SeedRequired(before.counts)
  }

  lemma StepFacts(allowed: set<string>, s: State, e: Event)
    requires Ordered(Stored(s))
    ensures Ordered(Stored(Step(allowed, s, e))) && Extends(Stored(s), Stored(Step(allowed, s, e)))
    ensures CompletedOnSeed(s, Step(allowed, s, e))
  {
    hide Trim, IsStep, Supported, AllEmpty, SeedRequired;
  }

  /** From the first request on, in every run: initialized implies the password step;
      completed implies initialized and the password, exchange and complete steps. */
  lemma {:induction false} RunIsOrdered(allowed: set<string>, s: State, events: seq<Event>)
    requires s.row.None?
    ensures var row := Stored(Run(allowed, s, events));
      && (row.initialized ==> "password" in row.completedSteps)
      && (row.completedAt.Some? ==> row.initialized && {"password", "exchange", "complete"} <= row.completedSteps)
  {
    if events != [] {
      RunIsOrdered(allowed, s, events[..|events| - 1]);
      StepFacts(allowed, Run(allowed, s, events[..|events| - 1]), events[|events| - 1]);
    }
  }

  lemma {:induction false} RunExtends(allowed: set<string>, s: State, events: seq<Event>)
    requires Ordered(Stored(s))
    ensures Ordered(Stored(Run(allowed, s, events))) && Extends(Stored(s), Stored(Run(allowed, s, events)))
  {
    if events != [] {
      RunExtends(allowed, s, events[..|events| - 1]);
      StepFacts(allowed, Run(allowed, s, events[..|events| - 1]), events[|events| - 1]);
    }
  }

  /** No step is taken back, initialization is final, and once completed nothing
      changes the row: for every run split in two. */
  lemma SetupIsMonotoneAndAbsorbing(allowed: set<string>, s: State, events: seq<Event>, later: seq<Event>)
    requires s.row.None?
    ensures var middle := Run(allowed, s, events);
      var (before, after) := (Stored(middle), Stored(Run(allowed, middle, later)));
      && before.completedSteps <= after.completedSteps
      && (before.initialized ==> after.initialized)
      && (before.seededAt.Some? ==> after.seededAt.Some?)
      && (before.completedAt.Some? ==> after == before)
  {
    RunIsOrdered(allowed, s, events);
    RunExtends(allowed, Run(allowed, s, events), later);
  }

  /** Completion happened on seeded tables: some step of the run completed the wizard,
      and before that step each of the five tables held rows. */
  lemma {:induction false} CompletionWasSeeded(allowed: set<string>, s: State, events: seq<Event>)
    requires s.row.None? && Stored(Run(allowed, s, events)).completedAt.Some?
    ensures exists n | 0 <= n < |events| ::
      && Stored(Run(allowed, s, events[..n])).completedAt.None?
      && Stored(Run(allowed, s, events[..n + 1])).completedAt.Some?
      && var c := Run(allowed, s, events[..n]).counts;
         c.exchanges > 0 && c.pairs > 0 && c.tokens > 0 && c.customConfig > 0 && c.strategies > 0
  {
    hide Step;
    var k := |events| - 1;
    var init := events[..k];
    assert events[..k + 1] == events;
    if Stored(Run(allowed, s, init)).completedAt.Some? {
      CompletionWasSeeded(allowed, s, init);
      var n :| 0 <= n < |init| && Stored(Run(allowed, s, init[..n])).completedAt.None?
        && Stored(Run(allowed, s, init[..n + 1])).completedAt.Some?
        && var c := Run(allowed, s, init[..n]).counts;
           c.exchanges > 0 && c.pairs > 0 && c.tokens > 0 && c.customConfig > 0 && c.strategies > 0;
      assert events[..n] == init[..n] && events[..n + 1] == init[..n + 1];
    } else {
      RunIsOrdered(allowed, s, init);
      StepFacts(allowed, Run(allowed, s, init), events[k]);
    }
  }

  // ---- when requests are accepted ----

  /** completeSetup, on any row: in which order it is refused, for which missing steps, and
      what it leaves when each is there and each of the five tables holds rows. */
  lemma CompletesExactly(allowed: set<string>, row: Row, c: Counts, now: nat)
    ensures var r := Refusal(allowed, row, c, CompleteSetup(now));
      var seeded := c.exchanges > 0 && c.pairs > 0 && c.tokens > 0 && c.customConfig > 0 && c.strategies > 0;
      && (!row.initialized ==> r == Some(NotInitialized))
      && (row.initialized && row.completedAt.Some? ==> r == Some(AlreadyCompleted))
      && (row.initialized && row.completedAt.None? ==>
           if {"password", "exchange"} <= row.completedSteps && seeded then
             r == None
             && Accepted(row, CompleteSetup(now)) == Row(true, row.completedSteps + {"complete"}, row.seededAt,
               Some(now))
           else
             r.Some? && r.value.MissingSteps?
             && ("seed" in r.value.steps <==> !seeded)
             && forall step :: step in r.value.steps ==>
                  step == "seed" || (step in {"password", "exchange"} && step !in row.completedSteps))
  {
  }

  /** The other requests, on any row. */
  lemma AcceptsExactly(allowed: set<string>, row: Row, c: Counts, r: Request)
    requires !r.CompleteSetup?
    ensures var refusal := Refusal(allowed, row, c, r);
      match r
      case GetStatus => refusal == None && Accepted(row, r) == row
      case SetPassword =>
        if row.completedAt.Some? then refusal == Some(AlreadyCompleted)
        else if row.initialized then refusal == Some(PasswordAlreadySet)
        else refusal == None && Accepted(row, r) == Row(true, row.completedSteps + {"password"}, row.seededAt, None)
      case SeedDatabase(succeeds, now) =>
        if !row.initialized then refusal == Some(NotInitialized)
        else if row.completedAt.Some? then refusal == Some(AlreadyCompleted)
        else if !succeeds then refusal == Some(SeedFailed)
        else refusal == None && Accepted(row, r) == Row(true, row.completedSteps + {"seed"}, Some(now), None)
      case CompleteStep(step) =>
        if !IsStep(Trim(step)) then refusal == Some(InvalidStep)
        else if !row.initialized then refusal == Some(NotInitialized)
        else if row.completedAt.Some? then refusal == Some(AlreadyCompleted)
        else refusal == None && Accepted(row, r) == Row(true, row.completedSteps + {Trim(step)}, row.seededAt, None)
      case WriteEnvValues(values) =>
        if !row.initialized then refusal == Some(NotInitialized)
        else if row.completedAt.Some? then refusal == Some(AlreadyCompleted)
        else if values.None? then refusal == Some(ValuesRequired)
        else if exists v <- values.value :: v.0 !in allowed then refusal == Some(UnsupportedKey)
        else if forall v <- values.value :: v.1 == "" then refusal == Some(NoValues)
        else refusal == None && Accepted(row, r) == Row(true, row.completedSteps + {"env"}, row.seededAt, None)
      case _ => true
  {
    hide IsStep, Trim;
  }

  /** A step's name has one to sixty-four characters, by their codes: small letters,
      digits, underscores and hyphens. */
  lemma StepNames(step: string)
    ensures IsStep(step) <==> 0 < |step| < 65 && forall c <- step ::
      97 <= c as int <= 122 || 48 <= c as int <= 57 || c as int == 95 || c as int == 45
  {
    forall c: char
      ensures IsStepChar(c) <==> 97 <= c as int <= 122 || 48 <= c as int <= 57 || c as int == 95 || c as int == 45
    {
    }
  }

  /** A request leaves the tables alone, and a password is configured after it exactly when
      one was before or it was set by it. */
  lemma PasswordIsKept(allowed: set<string>, s: State, r: Request)
    ensures var s' := Handle(allowed, s, r);
      && s'.counts == s.counts
      && (s'.hasPassword <==> s.hasPassword || (r.SetPassword? && !RowOf(s).initialized && RowOf(s).completedAt.None?))
  {
    hide IsStep, Trim, SeedRequired;
  }

  /** What getState makes of the stored row: nothing new, unless a password is configured
      and the row does not know it yet. */
  lemma StateRead(s: State)
    ensures var row := if s.row.Some? then s.row.value else Row(false, {}, None, None);
      RowOf(s) == if s.hasPassword && !row.initialized
                  then Row(true, row.completedSteps + {"password"}, row.seededAt, row.completedAt) else row
  {
  }

  /** A password can be set at most once, and completeSetup never finds it missing. */
  lemma PasswordIsSetOnce(allowed: set<string>, s: State, events: seq<Event>, later: seq<Event>)
    requires s.row.None? && Stored(Run(allowed, s, events)).initialized
    ensures var after := Run(allowed, Run(allowed, s, events), later);
      && Refusal(allowed, RowOf(after), after.counts, SetPassword).Some?
      && "password" !in Missing(RowOf(after), after.counts)
  {
    RunIsOrdered(allowed, s, events);
    RunExtends(allowed, Run(allowed, s, events), later);
  }
}
