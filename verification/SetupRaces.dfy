/** Setup requests that overlap. Each reads the row, saves what it read back, and saves
    the row again with its change; in between, other requests do the same. */
module SetupRaces {
  import opened Outcomes
  import opened Setup
  import opened Text

  /** A request under way, with the row it read and when. */
  datatype Busy = Busy(request: Request, held: Row, readAt: nat)

  datatype World = World(row: Option<Row>, busy: map<nat, Busy>, clock: nat)

  /** `Read` is getState up to its save, `SaveBack` that save, and `Finish` the rest of the
      handler, with the table counts it saw. */
  datatype Event =
    | Read(id: nat, request: Request, findsPassword: bool)
    | SaveBack(id: nat)
    | Finish(id: nat, counts: Counts)
    | Drop(id: nat)

  /** The row getState makes of what it finds. */
  function RowRead(row: Option<Row>, findsPassword: bool): Row { RowOf(State(row, findsPassword, Counts(0, 0, 0, 0,
                   0))) }

  predicate Accepts(allowed: set<string>, b: Busy, counts: Counts) {
    ReadsState(b.request) && Refusal(allowed, b.held, counts, b.request).None?
  }

  /** What the event saves, if it saves anything. */
  function Saved(allowed: set<string>, w: World, e: Event): Option<Row> {
    if e.SaveBack? && e.id in w.busy && ReadsState(w.busy[e.id].request) then Some(w.busy[e.id].held)
    else if e.Finish? && e.id in w.busy && Accepts(allowed, w.busy[e.id], e.counts)
    then Some(Accepted(w.busy[e.id].held, w.busy[e.id].request))
    else None
  }

  function Step(allowed: set<string>, w: World, e: Event): World {
    var saved := Saved(allowed, w, e);
    World(
      if saved.Some? then saved else w.row,
      match e
      case Read(id, request, findsPassword) =>
        if id in w.busy then w.busy else w.busy[id := Busy(request, RowRead(w.row, findsPassword), w.clock)]
      case SaveBack(_) => w.busy
      case Finish(id, _) => w.busy - {id}
      case Drop(id) => w.busy - {id},
      w.clock + 1)
  }

  function Run(allowed: set<string>, row: Option<Row>, events: seq<Event>): World {
    if events == [] then World(row, map[], 0)
    else Step(allowed, Run(allowed, row, events[..|events| - 1]), events[|events| - 1])
  }

  function At(allowed: set<string>, row: Option<Row>, events: seq<Event>, n: nat): World
    requires n <= |events|
  {
    Run(allowed, row, events[..n])
  }

  lemma StepAt(allowed: set<string>, row: Option<Row>, events: seq<Event>, n: nat)
    requires n < |events|
    ensures At(allowed, row, events, n + 1) == Step(allowed, At(allowed, row, events, n), events[n])
  {
    hide Step;
    assert events[..n + 1][..n] == events[..n];
  }

  lemma {:induction false} ClockCounts(allowed: set<string>, row: Option<Row>, events: seq<Event>, n: nat)
    requires n <= |events|
    ensures At(allowed, row, events, n).clock == n
  {
    if n > 0 {
      ClockCounts(allowed, row, events, n - 1);
      StepAt(allowed, row, events, n - 1);
    }
  }

  /** A request that nothing overlaps does what its handler does as one step. */
  lemma AloneIsHandle(allowed: set<string>, w: World, id: nat, request: Request, s: State)
    requires id !in w.busy && s.row == w.row
    ensures var read := Step(allowed, w, Read(id, request, s.hasPassword));
      Step(allowed, Step(allowed, read, SaveBack(id)), Finish(id, s.counts)).row == Handle(allowed, s, request).row
  {
    hide Trim, IsStep, Refusal, Accepted;
  }

  // ---- what every interleaving keeps ----

  ghost predicate AllOrdered(w: World) {
    (w.row.Some? ==> Ordered(w.row.value)) && forall id <- w.busy :: Ordered(w.busy[id].held)
  }

  lemma SavedIsOrdered(allowed: set<string>, w: World, e: Event)
    requires AllOrdered(w) && Saved(allowed, w, e).Some?
    ensures Ordered(Saved(allowed, w, e).value)
  {
    hide Trim, IsStep, Supported, AllEmpty, SeedRequired;
  }

  lemma StepKeepsOrder(allowed: set<string>, w: World, e: Event)
    requires AllOrdered(w)
    ensures AllOrdered(Step(allowed, w, e))
  {
    hide Saved;
    if Saved(allowed, w, e).Some? { SavedIsOrdered(allowed, w, e); }
  }

  /** However requests overlap: a stored row that is initialized has the password step, and
      a completed one is initialized and has the password, exchange and complete steps. */
  lemma {:induction false} OverlapsKeepOrder(allowed: set<string>, row: Option<Row>, events: seq<Event>)
    requires row.Some? ==> Ordered(row.value)
    ensures AllOrdered(Run(allowed, row, events))
  {
    hide Step;
    if events != [] {
      OverlapsKeepOrder(allowed, row, events[..|events| - 1]);
      StepKeepsOrder(allowed, Run(allowed, row, events[..|events| - 1]), events[|events| - 1]);
    }
  }

  // ---- when completion survives ----

  predicate Completed(w: World) { w.row.Some? && w.row.value.completedAt.Some? }

  /** The event saves for a request that holds a row from before the completion, other
      than one that completes the wizard itself. */
  predicate Uncompletes(allowed: set<string>, w: World, e: Event) {
    && Saved(allowed, w, e).Some? && w.busy[e.id].held.completedAt.None?
    && !(e.Finish? && w.busy[e.id].request.CompleteSetup?)
  }

  lemma StepUncompletes(allowed: set<string>, w: World, e: Event)
    requires Completed(w)
    ensures Completed(Step(allowed, w, e)) <==> !Uncompletes(allowed, w, e)
  {
    hide Trim, IsStep, Supported, AllEmpty, Missing, ReadsState;
  }

  /** Completion survives from one point to another exactly when no request that holds an
      uncompleted row saves in between, except to complete the wizard again. */
  lemma {:induction false} CompletionSurvivesExactly(allowed: set<string>, row: Option<Row>, events: seq<Event>,
                                                     m: nat, n: nat)
    requires m <= n <= |events| && Completed(At(allowed, row, events, m))
    ensures (forall k | m <= k <= n :: Completed(At(allowed, row, events, k)))
      <==> forall k | m <= k < n :: !Uncompletes(allowed, At(allowed, row, events, k), events[k])
    decreases n
  {
    hide Step, Run, Completed, Uncompletes;
    if m < n {
      CompletionSurvivesExactly(allowed, row, events, m, n - 1);
      if forall k | m <= k < n - 1 :: !Uncompletes(allowed, At(allowed, row, events, k), events[k]) {
        assert Completed(At(allowed, row, events, n - 1));
        StepAt(allowed, row, events, n - 1);
        StepUncompletes(allowed, At(allowed, row, events, n - 1), events[n - 1]);
      } else {
        var k :| m <= k < n - 1 && Uncompletes(allowed, At(allowed, row, events, k), events[k]);
        var j :| m <= j <= n - 1 && !Completed(At(allowed, row, events, j));
      }
    }
  }

  /** All requests that read since m hold the row as it was then. */
  ghost predicate LateReadersHold(w: World, m: nat, r: Row) {
    w.row == Some(r) && forall id <- w.busy :: w.busy[id].readAt >= m ==> w.busy[id].held == r
  }

  predicate SavedByLate(allowed: set<string>, w: World, e: Event, m: nat) {
    Saved(allowed, w, e).Some? ==> w.busy[e.id].readAt >= m
  }

  lemma LateStepKeepsRow(allowed: set<string>, w: World, e: Event, m: nat, r: Row)
    requires LateReadersHold(w, m, r) && r.completedAt.Some? && Ordered(r) && SavedByLate(allowed, w, e, m)
    ensures LateReadersHold(Step(allowed, w, e), m, r)
  {
    hide Trim, IsStep, Supported, AllEmpty, Missing;
  }

  lemma {:induction false} LateReadersKeepRow(allowed: set<string>, row: Option<Row>, events: seq<Event>, m: nat,
                                              n: nat)
    requires m <= n <= |events| && Completed(At(allowed, row, events, m)) && (row.Some? ==> Ordered(row.value))
    requires forall k | m <= k < n :: SavedByLate(allowed, At(allowed, row, events, k), events[k], m)
    ensures LateReadersHold(At(allowed, row, events, n), m, At(allowed, row, events, m).row.value)
    decreases n
  {
    hide Step, Run, SavedByLate;
    OverlapsKeepOrder(allowed, row, events[..m]);
    if m == n {
      EarlyClock(allowed, row, events, m);
    } else {
      LateReadersKeepRow(allowed, row, events, m, n - 1);
      StepAt(allowed, row, events, n - 1);
      LateStepKeepsRow(allowed, At(allowed, row, events, n - 1), events[n - 1], m,
        At(allowed, row, events, m).row.value);
    }
  }

  lemma {:induction false} EarlyClock(allowed: set<string>, row: Option<Row>, events: seq<Event>, n: nat)
    requires n <= |events|
    ensures forall id <- At(allowed, row, events, n).busy :: At(allowed, row, events, n).busy[id].readAt < n
  {
    hide RowRead, Saved;
    if n > 0 {
      EarlyClock(allowed, row, events, n - 1);
      ClockCounts(allowed, row, events, n - 1);
      StepAt(allowed, row, events, n - 1);
    }
  }

  /** A completed row stays exactly as it is as long as every request that saves read the
      row after the completion; each of them is refused or saves it unchanged. */
  lemma CompletedRowStays(allowed: set<string>, row: Option<Row>, events: seq<Event>, m: nat, n: nat)
    requires m <= n <= |events| && Completed(At(allowed, row, events, m)) && (row.Some? ==> Ordered(row.value))
    requires forall k | m <= k < n :: SavedByLate(allowed, At(allowed, row, events, k), events[k], m)
    ensures At(allowed, row, events, n).row == At(allowed, row, events, m).row
  {
    hide Step, Run, SavedByLate;
    LateReadersKeepRow(allowed, row, events, m, n);
  }

  /** A completeStep that overlaps completeSetup puts back the row it read: the wizard is
      no longer completed. */
  lemma OverlappingStepUndoesCompletion(allowed: set<string>, r: Row, step: string, now: nat, counts: Counts)
    requires Ordered(r) && r.initialized && r.completedAt.None? && "exchange" in r.completedSteps
    requires IsStep(Trim(step)) && !SeedRequired(counts)
    ensures var es := [Read(0, CompleteStep(step), false), SaveBack(0), Read(1, CompleteSetup(now), false), SaveBack(1),
                       Finish(1, counts)];
      && Completed(Run(allowed, Some(r), es))
      && Run(allowed, Some(r), es + [Finish(0, counts)]).row == Some(Accepted(r, CompleteStep(step)))
      && !Completed(Run(allowed, Some(r), es + [Finish(0, counts)]))
  {
    hide Trim, IsStep, SeedRequired, Run;
    var (read, complete, end) := (Read(0, CompleteStep(step), false), Read(1, CompleteSetup(now), false),
      Finish(1, counts));
    var start := World(Some(r), map[], 0);
    RunOfNone(allowed, Some(r));
    RunMore(allowed, Some(r), [], read);
    RunMore(allowed, Some(r), [read], SaveBack(0));
    RunMore(allowed, Some(r), [read, SaveBack(0)], complete);
    RunMore(allowed, Some(r), [read, SaveBack(0), complete], SaveBack(1));
    RunMore(allowed, Some(r), [read, SaveBack(0), complete, SaveBack(1)], end);
    RunMore(allowed, Some(r), [read, SaveBack(0), complete, SaveBack(1), end], Finish(0, counts));
    assert [] + [read] == [read] && [read] + [SaveBack(0)] == [read, SaveBack(0)];
    assert [read, SaveBack(0)] + [complete] == [read, SaveBack(0), complete];
    assert [read, SaveBack(0), complete] + [SaveBack(1)] == [read, SaveBack(0), complete, SaveBack(1)];
    assert [read, SaveBack(0), complete, SaveBack(1)] + [end] == [read, SaveBack(0), complete, SaveBack(1), end];
    var w2 := Step(allowed, Step(allowed, start, read), SaveBack(0));
    assert w2.row == Some(r) && w2.busy[0] == Busy(CompleteStep(step), r, 0);
    var w4 := Step(allowed, Step(allowed, w2, complete), SaveBack(1));
    assert w4.row == Some(r) && w4.busy[1].held == r && w4.busy[0] == w2.busy[0];
    var w5 := Step(allowed, w4, end);
    assert w5.row == Some(Accepted(r, CompleteSetup(now))) && w5.busy[0] == w2.busy[0];
  }

  lemma RunOfNone(allowed: set<string>, row: Option<Row>)
    ensures Run(allowed, row, []) == World(row, map[], 0)
  {
  }

  lemma RunMore(allowed: set<string>, row: Option<Row>, events: seq<Event>, e: Event)
    ensures Run(allowed, row, events + [e]) == Step(allowed, Run(allowed, row, events), e)
  {
    hide Step;
    assert (events + [e])[..|events|] == events;
  }
}
