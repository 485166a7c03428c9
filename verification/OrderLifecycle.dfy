/** What the market-making store keeps over whole sessions: the overlay is one map of
    orders, and every order's history can be read off its log. */
module OrderLifecycle {
  import opened Decimal
  import opened MarketMaking
  import opened Outcomes
  import opened Text

  // ---- the overlay as one map ----

  function OrderMap(orders: seq<Order>): map<string, Order> {
    if orders == [] then map[] else OrderMap(orders[1..])[orders[0].id := orders[0]]
  }

  /** The seed orders, overridden by the session's. */
  function Overlay(seeds: seq<Order>, orders: seq<Order>): map<string, Order> {
    OrderMap(seeds) + OrderMap(orders)
  }

  lemma {:induction false} OrderMapFacts(orders: seq<Order>, id: string)
    ensures id in OrderMap(orders) <==> Find(orders, id).Some?
    ensures id in OrderMap(orders) ==> OrderMap(orders)[id] == Find(orders, id).value
    ensures id in OrderMap(orders) <==> id in Ids(orders)
  {
    if orders != [] {
      OrderMapFacts(orders[1..], id);
      assert orders == [orders[0]] + orders[1..];
    }
  }

  lemma {:induction false} FindIsThe(orders: seq<Order>, o: Order)
    requires DistinctIds(orders) && o in orders
    ensures Find(orders, o.id) == Some(o)
  {
    if orders[0] != o {
      assert orders == [orders[0]] + orders[1..];
      assert o in orders[1..];
      var i :| 0 <= i < |orders[1..]| && orders[1..][i] == o;
      assert orders[i + 1] == o;
      FindIsThe(orders[1..], o);
    }
  }

  /** The find-or-fall-back lookup reads the overlay. */
  lemma CurrentOrderIsOverlay(seeds: seq<Order>, orders: seq<Order>, id: string)
    ensures CurrentOrder(seeds, orders, id)
         == if id in Overlay(seeds, orders) then Some(Overlay(seeds, orders)[id]) else None
  {
    OrderMapFacts(seeds, id);
    OrderMapFacts(orders, id);
  }

  lemma {:induction false} NotInFacts(seeds: seq<Order>, ids: set<string>)
    ensures forall o :: o in NotIn(seeds, ids) <==> o in seeds && o.id !in ids
    ensures DistinctIds(seeds) ==> DistinctIds(NotIn(seeds, ids))
  {
    if seeds != [] {
      NotInFacts(seeds[1..], ids);
      assert seeds == [seeds[0]] + seeds[1..];
      var rest := NotIn(seeds[1..], ids);
      if DistinctIds(seeds) {
        assert DistinctIds(seeds[1..]);
        forall i | 0 <= i < |rest| ensures rest[i].id != seeds[0].id {
          var k :| 0 <= k < |seeds[1..]| && seeds[1..][k] == rest[i];
          assert seeds[k + 1] == rest[i];
        }
      }
    }
  }

  /** The derived list of all orders has distinct ids and is the overlay. */
  lemma AllOrdersIsOverlay(seeds: seq<Order>, orders: seq<Order>)
    requires DistinctIds(seeds) && DistinctIds(orders)
    ensures DistinctIds(AllOrders(seeds, orders))
    ensures forall o :: o in AllOrders(seeds, orders) <==>
      o.id in Overlay(seeds, orders) && Overlay(seeds, orders)[o.id] == o
  {
    var all, rest := AllOrders(seeds, orders), NotIn(seeds, Ids(orders));
    NotInFacts(seeds, Ids(orders));
    forall i, j | 0 <= i < |orders| && 0 <= j < |rest| ensures orders[i].id != rest[j].id {
      assert orders[i].id in Ids(orders) && rest[j] in rest;
    }
    forall o ensures o in all <==> o.id in Overlay(seeds, orders) && Overlay(seeds, orders)[o.id] == o {
      OrderMapFacts(seeds, o.id);
      OrderMapFacts(orders, o.id);
      if o in orders { FindIsThe(orders, o); }
      else if o in rest { FindIsThe(seeds, o); }
    }
  }

  /** Prepend-or-replace is a single update of the map. */
  lemma PutIsMapUpdate(seeds: seq<Order>, orders: seq<Order>, o: Order)
    requires DistinctIds(orders)
    ensures DistinctIds(Put(orders, o))
    ensures Overlay(seeds, Put(orders, o)) == Overlay(seeds, orders)[o.id := o]
  {
    hide Replaced;
    if Find(orders, o.id).None? {
      assert ([o] + orders)[1..] == orders;
      assert forall i | 0 <= i < |orders| :: orders[i].id in Ids(orders);
    } else {
      ReplacedIsMapUpdate(orders, o);
      ReplacedKeepsDistinct(orders, o);
    }
  }

  lemma {:induction false} FindReplaced(orders: seq<Order>, o: Order, id: string)
    ensures Find(Replaced(orders, o), id)
         == if id == o.id && Find(orders, id).Some? then Some(o) else Find(orders, id)
  {
    if orders != [] {
      assert Replaced(orders, o)[1..] == Replaced(orders[1..], o);
      FindReplaced(orders[1..], o, id);
    }
  }

  lemma ReplacedIsMapUpdate(orders: seq<Order>, o: Order)
    requires Find(orders, o.id).Some?
    ensures OrderMap(Replaced(orders, o)) == OrderMap(orders)[o.id := o]
  {
    hide OrderMap, Find, Replaced;
    var m, m' := OrderMap(orders)[o.id := o], OrderMap(Replaced(orders, o));
    forall id ensures (id in m <==> id in m') && (id in m ==> m[id] == m'[id]) {
      FindReplaced(orders, o, id);
      OrderMapFacts(orders, id);
      OrderMapFacts(Replaced(orders, o), id);
    }
  }

  lemma ReplacedKeepsDistinct(orders: seq<Order>, o: Order)
    requires DistinctIds(orders)
    ensures DistinctIds(Replaced(orders, o))
  {
    var r := Replaced(orders, o);
    assert forall i | 0 <= i < |r| :: r[i].id == orders[i].id;
  }

  // ---- the history of one order ----

  function Replay(o: Order, actions: seq<Action>): Order {
    if actions == [] then o else Next(Replay(o, actions[..|actions| - 1]), actions[|actions| - 1])
  }

  /** Every action was allowed when it was taken. */
  predicate LegalActions(o: Order, actions: seq<Action>) {
    actions == [] || (
      && LegalActions(o, actions[..|actions| - 1])
      && Allowed(Replay(o, actions[..|actions| - 1]).status, actions[|actions| - 1]))
  }

  function Count(actions: seq<Action>, action: Action): nat {
    if actions == [] then 0
    else Count(actions[..|actions| - 1], action) + if actions[|actions| - 1] == action then 1 else 0
  }

  /** Pauses and stops minus resumes. */
  function Held(actions: seq<Action>): int { Count(actions, Pause) + Count(actions, Stop) - Count(actions, Resume) }

  predicate IsHeld(status: Status) { status.Paused? || status.Stopped? }

  predicate LogTellsStatus(o: Order) { o.logs != [] && o.logs[|o.logs| - 1].status == o.status }

  /** What the lifecycle tells of any history: the log grows by one entry an action,
      its last entry is the status, holds and resumes alternate, stops are counted,
      and nothing else changes. */
  lemma {:induction false} HistoryFacts(o: Order, actions: seq<Action>)
    requires LegalActions(o, actions)
    ensures var r := Replay(o, actions);
      && o.logs <= r.logs && |r.logs| == |o.logs| + |actions|
      && (LogTellsStatus(o) ==> LogTellsStatus(r))
      && r == o.(status := r.status, updatedAt := r.updatedAt, cancelCount := r.cancelCount, logs := r.logs)
      && (o.cancelCount.Finite? ==> r.cancelCount == Finite(o.cancelCount.n + Count(actions, Stop)))
      && (o.status.Active? ==> (r.status.Active? && Held(actions) == 0) || (IsHeld(r.status) && Held(actions) == 1))
      && (IsHeld(o.status) ==> (r.status.Active? && Held(actions) == -1) || (IsHeld(r.status) && Held(actions) == 0))
      && (!o.status.Active? && !IsHeld(o.status) ==> actions == [] && r == o)
  {
    if actions != [] {
      hide LifecycleTimestamp, LabelOf;
      HistoryFacts(o, actions[..|actions| - 1]);
    }
  }

  // ---- sessions ----

  datatype Event =
    | CreateEvent(campaignId: string, namespace: Namespace, accountId: string, terms: string)
    | TransitionEvent(orderId: string, action: Action)
    | CampaignEvent(slug: string, name: string, terms: string, namespace: Namespace, accountId: string)
    | DraftEvent(draft: Option<OrderDraft>)
    | ReloadEvent

  function Step(seeds: seq<Order>, s: State, e: Event): State {
    match e
    case CreateEvent(campaignId, namespace, accountId, terms) => CreateOrder(s, campaignId, namespace, accountId, terms)
    case TransitionEvent(orderId, action) => Transition(seeds, s, orderId, action).0
    case CampaignEvent(slug, name, terms, namespace, accountId) =>
      CreateCampaign(s, slug, name, terms, namespace, accountId)
    case DraftEvent(draft) => s.(draft := draft)
    case ReloadEvent => Restored(s)
  }

  function Run(seeds: seq<Order>, events: seq<Event>): State {
    if events == [] then INITIAL else Step(seeds, Run(seeds, events[..|events| - 1]), events[|events| - 1])
  }

  predicate MadeHere(id: string, sequence: nat) {
    exists n: nat | n <= sequence :: id == OrderId(Evm, n) || id == OrderId(Solana, n)
  }

  /** Seed orders have distinct ids that no session order can get, a log that tells
      their status, and finite numbers. */
  ghost predicate SeedsOk(seeds: seq<Order>) {
    && DistinctIds(seeds)
    && (forall o <- seeds :: LogTellsStatus(o) && IsMockOrder(o))
    && forall o <- seeds, n: nat :: o.id != OrderId(Evm, n) && o.id != OrderId(Solana, n)
  }

  ghost predicate Inv(seeds: seq<Order>, s: State) {
    && DistinctIds(s.orders)
    && (forall o <- s.orders :: IsMockOrder(o) && (o.id in Ids(seeds) || MadeHere(o.id, s.orderSequence)))
    && (forall c <- s.campaigns :: IsMockCampaign(c))
  }

  lemma OrderIdsDiffer(k1: Namespace, n1: nat, k2: Namespace, n2: nat)
    requires OrderId(k1, n1) == OrderId(k2, n2)
    ensures k1 == k2 && n1 == n2
  {
    var p1, p2 := (if k1.Evm? then "MM-EVM-" else "MM-SOLANA-"), (if k2.Evm? then "MM-EVM-" else "MM-SOLANA-");
    assert OrderId(k1, n1)[3] == p1[3] && OrderId(k2, n2)[3] == p2[3];
    assert p1 == p2;
    assert OrderId(k1, n1)[|p1|..] == Digits(n1) && OrderId(k2, n2)[|p2|..] == Digits(n2);
    DigitsInjective(n1, n2);
  }

  // ---- the snapshot ----

  lemma {:induction false} KeepOrdersAll(orders: seq<Order>)
    ensures |KeepOrders(orders)| <= |orders|
    ensures KeepOrders(orders) == orders <==> forall o <- orders :: IsMockOrder(o)
  {
    if orders != [] {
      KeepOrdersAll(orders[1..]);
      assert orders == [orders[0]] + orders[1..];
      if IsMockOrder(orders[0]) { assert KeepOrders(orders)[1..] == KeepOrders(orders[1..]); }
      else { assert orders[0] in orders; }
    }
  }

  lemma {:induction false} KeepCampaignsAll(campaigns: seq<Campaign>)
    ensures |KeepCampaigns(campaigns)| <= |campaigns|
    ensures KeepCampaigns(campaigns) == campaigns <==> forall c <- campaigns :: IsMockCampaign(c)
  {
    if campaigns != [] {
      KeepCampaignsAll(campaigns[1..]);
      assert campaigns == [campaigns[0]] + campaigns[1..];
      if IsMockCampaign(campaigns[0]) { assert KeepCampaigns(campaigns)[1..] == KeepCampaigns(campaigns[1..]); }
      else { assert campaigns[0] in campaigns; }
    }
  }

  /** A snapshot restores exactly the state it was taken of exactly when every number is finite. */
  lemma RestoreGivesBackExactly(s: State)
    ensures Restored(s) == s <==>
      (forall o <- s.orders ::
         o.placedOrders.Finite? && o.successCount.Finite? && o.failureCount.Finite? && o.cancelCount.Finite?)
      && (forall c <- s.campaigns :: c.participants.Finite?)
  {
    KeepOrdersAll(s.orders);
    KeepCampaignsAll(s.campaigns);
  }

  // ---- every step ----

  /** The step on the overlay: a fresh entry, or one entry moved along its lifecycle. */
  function OverlayStep(m: map<string, Order>, s: State, e: Event): map<string, Order> {
    match e
    case CreateEvent(campaignId, namespace, accountId, terms) =>
      var id := OrderId(namespace, s.orderSequence + 1);
      m[id := NewOrder(id, campaignId, namespace, accountId, terms)]
    case TransitionEvent(id, action) =>
      if id in m && Allowed(m[id].status, action) then m[id := Next(m[id], action)] else m
    case _ => m
  }

  lemma CreateIsFresh(seeds: seq<Order>, s: State, namespace: Namespace)
    requires SeedsOk(seeds) && Inv(seeds, s)
    ensures OrderId(namespace, s.orderSequence + 1) !in Overlay(seeds, s.orders)
  {
    hide OrderId, Overlay, OrderMap, IsMockOrder;
    var id := OrderId(namespace, s.orderSequence + 1);
    forall o | o in s.orders ensures o.id != id {
      if o.id !in Ids(seeds) {
        var n: nat :| n <= s.orderSequence && (o.id == OrderId(Evm, n) || o.id == OrderId(Solana, n));
        if o.id == id && id == OrderId(Evm, n) { OrderIdsDiffer(namespace, s.orderSequence + 1, Evm, n); }
        else if o.id == id { OrderIdsDiffer(namespace, s.orderSequence + 1, Solana, n); }
      }
    }
    NotInOverlay(seeds, s.orders, id);
  }

  lemma NotInOverlay(seeds: seq<Order>, orders: seq<Order>, id: string)
    ensures id in Overlay(seeds, orders) <==> id in Ids(seeds) || id in Ids(orders)
  {
    OrderMapFacts(seeds, id);
    OrderMapFacts(orders, id);
  }

  lemma TransitionRefines(seeds: seq<Order>, s: State, id: string, action: Action)
    requires SeedsOk(seeds) && Inv(seeds, s)
    ensures var s' := Transition(seeds, s, id, action).0;
      Inv(seeds, s') &&
        Overlay(seeds, s'.orders) == OverlayStep(Overlay(seeds, s.orders), s, TransitionEvent(id, action))
  {
    hide LifecycleActivity, OrderId, LifecycleTimestamp, LabelOf, OrderMap, Overlay;
    CurrentOrderIsOverlay(seeds, s.orders, id);
    var current := CurrentOrder(seeds, s.orders, id);
    if current.Some? && Allowed(current.value.status, action) {
      var o := Next(current.value, action);
      PutIsMapUpdate(seeds, s.orders, o);
      PutMembers(s.orders, o);
      assert o.id == id;
    }
  }

  lemma PutMembers(orders: seq<Order>, o: Order)
    ensures forall x <- Put(orders, o) :: x in orders || x == o
  {
  }

  /** Each step refines one step on the map of orders, and gives new orders fresh ids. */
  lemma StepRefines(seeds: seq<Order>, s: State, e: Event)
    requires SeedsOk(seeds) && Inv(seeds, s)
    ensures Inv(seeds, Step(seeds, s, e))
    ensures Overlay(seeds, Step(seeds, s, e).orders) == OverlayStep(Overlay(seeds, s.orders), s, e)
    ensures e.CreateEvent? ==> OrderId(e.namespace, s.orderSequence + 1) !in Overlay(seeds, s.orders)
  {
    match e
    case CreateEvent(campaignId, namespace, accountId, terms) =>
      CreateIsFresh(seeds, s, namespace);
      CreateRefines(seeds, s, campaignId, namespace, accountId, terms);
    case TransitionEvent(id, action) => TransitionRefines(seeds, s, id, action);
    case CampaignEvent(_, _, _, _, _) =>
    case DraftEvent(_) =>
    case ReloadEvent => RestoreGivesBackExactly(s);
  }

  lemma CreateKeepsInv(seeds: seq<Order>, s: State, campaignId: string, namespace: Namespace, accountId: string,
                       terms: string)
    requires Inv(seeds, s) && OrderId(namespace, s.orderSequence + 1) !in Ids(s.orders)
    ensures Inv(seeds, CreateOrder(s, campaignId, namespace, accountId, terms))
  {
    hide OrderId;
    var s' := CreateOrder(s, campaignId, namespace, accountId, terms);
    var o := s'.orders[0];
    assert MadeHere(o.id, s'.orderSequence);
    forall x | x in s.orders && MadeHere(x.id, s.orderSequence) ensures MadeHere(x.id, s'.orderSequence) {
      var n: nat :| n <= s.orderSequence && (x.id == OrderId(Evm, n) || x.id == OrderId(Solana, n));
    }
    assert forall i | 0 <= i < |s.orders| :: s.orders[i].id in Ids(s.orders);
  }

  lemma CreateRefines(seeds: seq<Order>, s: State, campaignId: string, namespace: Namespace, accountId: string,
                      terms: string)
    requires SeedsOk(seeds) && Inv(seeds, s)
    requires OrderId(namespace, s.orderSequence + 1) !in Overlay(seeds, s.orders)
    ensures var s' := CreateOrder(s, campaignId, namespace, accountId, terms);
      Inv(seeds, s') && Overlay(seeds, s'.orders)
        == OverlayStep(Overlay(seeds, s.orders), s, CreateEvent(campaignId, namespace, accountId, terms))
  {
    hide OrderId, Overlay, OrderMap, Inv, SeedsOk, MadeHere;
    var id := OrderId(namespace, s.orderSequence + 1);
    var o := NewOrder(id, campaignId, namespace, accountId, terms);
    NotInOverlay(seeds, s.orders, id);
    OrderMapFacts(s.orders, id);
    CreateKeepsInv(seeds, s, campaignId, namespace, accountId, terms);
    InvIsDistinct(seeds, s);
    PutIsMapUpdate(seeds, s.orders, o);
    assert CreateOrder(s, campaignId, namespace, accountId, terms).orders == Put(s.orders, o);
  }

  lemma InvIsDistinct(seeds: seq<Order>, s: State)
    requires Inv(seeds, s)
    ensures DistinctIds(s.orders)
  {
  }

  // ---- every session ----

  lemma {:induction false} RunKeepsInv(seeds: seq<Order>, events: seq<Event>)
    requires SeedsOk(seeds)
    ensures Inv(seeds, Run(seeds, events))
  {
    if events != [] {
      RunKeepsInv(seeds, events[..|events| - 1]);
      StepRefines(seeds, Run(seeds, events[..|events| - 1]), events[|events| - 1]);
    }
  }

  /** The order as it was before this session touched it: a seed, or as created. */
  function Origin(seeds: seq<Order>, events: seq<Event>, id: string): Option<Order> {
    if events == [] then Find(seeds, id) else
      var (init, e) := (events[..|events| - 1], events[|events| - 1]);
      if Origin(seeds, init, id).Some? then Origin(seeds, init, id)
      else if e.CreateEvent? && id == OrderId(e.namespace, Run(seeds, init).orderSequence + 1) then
        Some(NewOrder(id, e.campaignId, e.namespace, e.accountId, e.terms))
      else None
  }

  /** The actions this session accepted on the order. */
  function Accepted(seeds: seq<Order>, events: seq<Event>, id: string): seq<Action> {
    if events == [] then [] else
      var (init, e) := (events[..|events| - 1], events[|events| - 1]);
      var before := Run(seeds, init);
      Accepted(seeds, init, id)
      + if e.TransitionEvent? && e.orderId == id &&
        Transition(seeds, before, id, e.action).1.Some? then [e.action] else []
  }

  lemma ReplayAppend(o: Order, actions: seq<Action>, action: Action)
    ensures Replay(o, actions + [action]) == Next(Replay(o, actions), action)
    ensures LegalActions(o, actions + [action]) <==>
      LegalActions(o, actions) && Allowed(Replay(o, actions).status, action)
  {
    assert (actions + [action])[..|actions|] == actions;
  }

  /** In every session, each shown order is its origin with its accepted actions replayed. */
  lemma {:induction false} OrdersAreReplays(seeds: seq<Order>, events: seq<Event>, id: string)
    requires SeedsOk(seeds)
    ensures var (m, origin) := (Overlay(seeds, Run(seeds, events).orders), Origin(seeds, events, id));
      var actions := Accepted(seeds, events, id);
      && (id in m <==> origin.Some?)
      && (origin.None? ==> actions == [])
      && (origin.Some? ==> m[id] == Replay(origin.value, actions) && LegalActions(origin.value, actions))
  {
    hide Step, Transition, Next, NewOrder, Overlay, OrderMap, OrderId, Replay, LegalActions, Allowed;
    if events == [] {
      StartIsOverlay(seeds, id);
      if Find(seeds, id).Some? { ReplayNothing(Find(seeds, id).value); }
    } else {
      var init, e := events[..|events| - 1], events[|events| - 1];
      OrdersAreReplays(seeds, init, id);
      RunKeepsInv(seeds, init);
      StepIsReplay(seeds, Run(seeds, init), e, id);
      assert Accepted(seeds, init, id) + [] == Accepted(seeds, init, id);
      if Origin(seeds, init, id).Some? {
        if e.TransitionEvent? { ReplayAppend(Origin(seeds, init, id).value, Accepted(seeds, init, id), e.action); }
      } else if Origin(seeds, events, id).Some? {
        ReplayNothing(Origin(seeds, events, id).value);
      }
    }
  }

  lemma ReplayNothing(o: Order)
    ensures Replay(o, []) == o && LegalActions(o, [])
  {
  }

  lemma StartIsOverlay(seeds: seq<Order>, id: string)
    ensures var m := Overlay(seeds, INITIAL.orders);
      (id in m <==> Find(seeds, id).Some?) && (id in m ==> m[id] == Find(seeds, id).value)
  {
    OrderMapFacts(seeds, id);
  }

  /** How one step moves one shown order. */
  lemma StepIsReplay(seeds: seq<Order>, s: State, e: Event, id: string)
    requires SeedsOk(seeds) && Inv(seeds, s)
    ensures var (m, m') := (Overlay(seeds, s.orders), Overlay(seeds, Step(seeds, s, e).orders));
      if e.CreateEvent? && id == OrderId(e.namespace, s.orderSequence + 1) then
        id !in m && id in m' && m'[id] == NewOrder(id, e.campaignId, e.namespace, e.accountId, e.terms)
      else if e.TransitionEvent? && e.orderId == id && Transition(seeds, s, id, e.action).1.Some? then
        id in m && id in m' && Allowed(m[id].status, e.action) && m'[id] == Next(m[id], e.action)
      else (id in m <==> id in m') && (id in m ==> m'[id] == m[id])
  {
    hide Overlay, OrderMap, OrderId, Next, NewOrder;
    StepRefines(seeds, s, e);
    CurrentOrderIsOverlay(seeds, s.orders, id);
  }

  /** The lifecycle in every session: the log of each shown order extends its first log
      and ends in its status; an order that began active has as many pauses and stops as
      resumes when active and one more when held; its cancel count grew by its stops; and
      an order that began in any other status, held aside, never changed. */
  lemma LifecycleInEverySession(seeds: seq<Order>, events: seq<Event>, id: string)
    requires SeedsOk(seeds) && id in Overlay(seeds, Run(seeds, events).orders)
    ensures Origin(seeds, events, id).Some?
    ensures var (o, first, actions) :=
        (Overlay(seeds, Run(seeds, events).orders)[id], Origin(seeds, events, id).value, Accepted(seeds, events, id));
      && first.logs <= o.logs && |o.logs| == |first.logs| + |actions| && LogTellsStatus(o)
      && first.cancelCount.Finite? && o.cancelCount == Finite(first.cancelCount.n + Count(actions, Stop))
      && (first.status.Active? ==> (o.status.Active? && Held(actions) == 0) || (IsHeld(o.status) && Held(actions) == 1))
      && (!first.status.Active? && !IsHeld(first.status) ==> o == first)
  {
    hide Overlay, Run, Origin, Accepted, Replay, LegalActions, Count;
    OrdersAreReplays(seeds, events, id);
    OriginsAreSound(seeds, events, id);
    HistoryFacts(Origin(seeds, events, id).value, Accepted(seeds, events, id));
  }

  lemma {:induction false} OriginsAreSound(seeds: seq<Order>, events: seq<Event>, id: string)
    requires SeedsOk(seeds) && Origin(seeds, events, id).Some?
    ensures LogTellsStatus(Origin(seeds, events, id).value) && Origin(seeds, events, id).value.cancelCount.Finite?
  {
    if events != [] && Origin(seeds, events[..|events| - 1], id).Some? {
      OriginsAreSound(seeds, events[..|events| - 1], id);
    }
  }

  /** In every session the shown list has distinct ids, and a reload changes nothing. */
  lemma SessionsAreSound(seeds: seq<Order>, events: seq<Event>)
    requires SeedsOk(seeds)
    ensures var s := Run(seeds, events);
      DistinctIds(AllOrders(seeds, s.orders)) && Restored(s) == s
  {
    RunKeepsInv(seeds, events);
    AllOrdersIsOverlay(seeds, Run(seeds, events).orders);
    RestoreGivesBackExactly(Run(seeds, events));
  }

  // ---- when actions are accepted ----

  /** In every session, for any order and action: accepted exactly when the order is shown
      and active, or held where the action is to resume; it is then shown paused, active
      or stopped, with one more log entry that says so, and a stop is counted. A refused
      action changes nothing. */
  lemma ActionAcceptedExactly(seeds: seq<Order>, events: seq<Event>, id: string, action: Action)
    requires SeedsOk(seeds)
    ensures var s := Run(seeds, events);
      var (m, (s', shown)) := (Overlay(seeds, s.orders), Transition(seeds, s, id, action));
      && (shown.Some? <==>
           (id in m && (match action
                        case Pause => m[id].status == Active
                        case Stop => m[id].status == Active
                        case Resume => m[id].status == Paused || m[id].status == Stopped)))
      && (shown.None? ==> s' == s)
      && (shown.Some? ==>
           && Overlay(seeds, s'.orders) == m[id := shown.value]
           && s'.activity == [Activity("activity-order-lifecycle-" + id + "-10-" + LifecycleMinute(|m[id].logs|),
                                       m[id].accountId, m[id].namespace, HeadingOf(action))] + s.activity
           && s'.campaigns == s.campaigns && s'.draft == s.draft
           && MovesOn(m[id], shown.value, action))
  {
    hide Run, SeedsOk, Inv, Overlay, Next, LifecycleMinute, Put;
    var s := Run(seeds, events);
    RunKeepsInv(seeds, events);
    TransitionRefines(seeds, s, id, action);
    CurrentOrderIsOverlay(seeds, s.orders, id);
    if id in Overlay(seeds, s.orders) {
      ShownUnderItsId(seeds, s.orders, id);
      NextMovesOn(Overlay(seeds, s.orders)[id], action);
    }
  }

  /** What an accepted action does to its order, text by text. */
  predicate MovesOn(o: Order, o': Order, action: Action) {
    var minute := if |o.logs| < 60 then |o.logs| else 59;
    var status := match action case Pause => Paused case Resume => Active case Stop => Stopped;
    && o'.status == status && o'.updatedAt == "2026-05-23 10:" + Fixed(minute, 2)
    && o'.logs == o.logs + [Log(o'.updatedAt, HeadingOf(action), status)]
    && (o.cancelCount.Finite? ==> o'.cancelCount == Finite(o.cancelCount.n + if action == Stop then 1 else 0))
    && o' == o.(status := o'.status, updatedAt := o'.updatedAt, cancelCount := o'.cancelCount, logs := o'.logs)
  }

  function HeadingOf(action: Action): string {
    if action == Pause then "Placement paused" else if action == Stop then "Placement stopped" else "Placement resumed"
  }

  lemma NextMovesOn(o: Order, action: Action)
    ensures MovesOn(o, Next(o, action), action)
  {
  }

  lemma ShownUnderItsId(seeds: seq<Order>, orders: seq<Order>, id: string)
    requires id in Overlay(seeds, orders)
    ensures Overlay(seeds, orders)[id].id == id
  {
    OrderMapFacts(seeds, id);
    OrderMapFacts(orders, id);
  }

  /** A new order begins active with its five log entries, nothing placed and nothing
      cancelled, under the next number of its chain, and drops the draft. */
  lemma CreatedOrder(seeds: seq<Order>, events: seq<Event>, campaignId: string, namespace: Namespace,
                     accountId: string, terms: string)
    requires SeedsOk(seeds)
    ensures var s := Run(seeds, events);
      var s' := CreateOrder(s, campaignId, namespace, accountId, terms);
      var id := (if namespace == Evm then "MM-EVM-" else "MM-SOLANA-") + Digits(s.orderSequence + 1);
      && s'.orderSequence == s.orderSequence + 1 && s'.draft == None && |s'.activity| == |s.activity| + 2
      && id in Overlay(seeds, s'.orders)
      && var o := Overlay(seeds, s'.orders)[id];
      && o.status == Active && o.accountId == accountId && o.campaignId == campaignId && o.namespace == namespace
      && o.placedOrders == o.successCount == o.failureCount == o.cancelCount == Finite(0)
      && |o.logs| == 5 && o.logs[0].status == Pending && o.logs[1].status == Approval && o.logs[2].status == Signing
      && o.logs[3].status == Submitted && o.logs[4].status == Active
      && o.logs[0].timestamp == "2026-05-23 09:18" && o.logs[1].timestamp == "2026-05-23 09:19"
      && o.logs[2].timestamp == "2026-05-23 09:20" && o.logs[3].timestamp == "2026-05-23 09:21"
      && o.logs[4].timestamp == o.updatedAt == "2026-05-23 09:22"
  {
    hide Run, SeedsOk, Inv, Overlay;
    var s := Run(seeds, events);
    RunKeepsInv(seeds, events);
    CreateIsFresh(seeds, s, namespace);
    CreateRefines(seeds, s, campaignId, namespace, accountId, terms);
  }

  /** The first order of a session is number 3001, and the first campaign number 1, under
      its name and with one participant. */
  lemma FirstNumbers(slug: string, name: string, terms: string, namespace: Namespace, accountId: string)
    ensures INITIAL.orders == [] && INITIAL.campaigns == [] && INITIAL.activity == [] && INITIAL.draft == None
    ensures OrderId(Evm, INITIAL.orderSequence + 1) == "MM-EVM-" + Digits(3001)
    ensures var s := CreateCampaign(INITIAL, slug, name, terms, namespace, accountId);
      && s.campaignSequence == 1 && s.campaigns == [Campaign(slug + "-" + Digits(1), Trim(name), terms, Finite(1))]
      && |s.activity| == 1 && s.activity[0].accountId == accountId && s.activity[0].namespace == namespace
  {
  }

  /** A new campaign comes first, under the next number; orders and draft stay. */
  lemma CreatedCampaign(s: State, slug: string, name: string, terms: string, namespace: Namespace, accountId: string)
    ensures var s' := CreateCampaign(s, slug, name, terms, namespace, accountId);
      && s'.campaignSequence == s.campaignSequence + 1 && s'.orders == s.orders && s'.draft == s.draft
      && s'.campaigns == [Campaign(slug + "-" + Digits(s'.campaignSequence), Trim(name), terms,
        Finite(1))] + s.campaigns
  {
  }

  /** A new order can be stopped, resumed, and is then active again with one stop counted. */
  lemma StopThenResume(seeds: seq<Order>, events: seq<Event>, campaignId: string, namespace: Namespace,
                       accountId: string, terms: string)
    requires SeedsOk(seeds)
    ensures var create := CreateEvent(campaignId, namespace, accountId, terms);
      var id := OrderId(namespace, Run(seeds, events).orderSequence + 1);
      var m := Overlay(seeds,
        Run(seeds, events + [create] + [TransitionEvent(id, Stop)] + [TransitionEvent(id, Resume)]).orders);
      id in m && m[id].status == Active && m[id].cancelCount == Finite(1)
  {
    hide Run, SeedsOk, Overlay, CreateOrder, NewOrder;
    var create := CreateEvent(campaignId, namespace, accountId, terms);
    var id := OrderId(namespace, Run(seeds, events).orderSequence + 1);
    RunMore(seeds, events, create);
    CreatedOrder(seeds, events, campaignId, namespace, accountId, terms);
    AfterAction(seeds, events + [create], id, Stop);
    AfterAction(seeds, events + [create] + [TransitionEvent(id, Stop)], id, Resume);
  }

  lemma AfterAction(seeds: seq<Order>, events: seq<Event>, id: string, action: Action)
    requires SeedsOk(seeds) && id in Overlay(seeds, Run(seeds, events).orders)
    requires var o := Overlay(seeds, Run(seeds, events).orders)[id];
      o.cancelCount.Finite? && if action == Resume then o.status in {Paused, Stopped} else o.status == Active
    ensures var m := Overlay(seeds, Run(seeds, events + [TransitionEvent(id, action)]).orders);
      var o := Overlay(seeds, Run(seeds, events).orders)[id];
      && id in m && m[id].cancelCount == Finite(o.cancelCount.n + if action == Stop then 1 else 0)
      && m[id].status == match action case Pause => Paused case Resume => Active case Stop => Stopped
  {
    hide Run, SeedsOk, Overlay, Transition, LifecycleMinute, HeadingOf;
    RunMore(seeds, events, TransitionEvent(id, action));
    ActionAcceptedExactly(seeds, events, id, action);
  }

  lemma RunMore(seeds: seq<Order>, events: seq<Event>, e: Event)
    ensures Run(seeds, events + [e]) == Step(seeds, Run(seeds, events), e)
  {
    hide Step;
    assert (events + [e])[..|events|] == events;
  }

  /** A user's session on the store: it goes through the states of the run, and what is
      in session storage is always the state itself, so a reload gives it back. */
  method PlaySession(seeds: seq<Order>, events: seq<Event>) returns (store: MarketMakingStore)
    requires SeedsOk(seeds)
    ensures store.View() == Run(seeds, events)
    ensures if store.stored.Some? then store.stored.value == store.View() else store.View() == INITIAL
  {
    store := new MarketMakingStore(seeds);
    for i := 0 to |events|
      invariant fresh(store) && store.mockOrders == seeds && store.View() == Run(seeds, events[..i])
      invariant if store.stored.Some? then store.stored.value == store.View() else store.View() == INITIAL
    {
      ghost var before := store.View();
      match events[i] {
        case CreateEvent(campaignId, namespace, accountId, terms) =>
          var _ := store.CreateMockOrder(campaignId, namespace, accountId, terms);
        case TransitionEvent(orderId, action) =>
          var _ := store.TransitionOrderLifecycle(orderId, action);
        case CampaignEvent(slug, name, terms, namespace, accountId) =>
          store.CreateMockCampaign(slug, name, terms, namespace, accountId);
        case DraftEvent(draft) =>
          store.SaveOrderDraft(draft);
        case ReloadEvent =>
          SessionsAreSound(seeds, events[..i]);
          store.Reload();
      }
      assert events[..i + 1][..i] == events[..i];
      assert store.View() == Step(seeds, before, events[i]);
    }
    assert events[..|events|] == events;
  }
}
