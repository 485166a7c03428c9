/** web3-interface/src/lib/stores/market-making.ts: session orders laid over seed
    orders, their lifecycle, and the session snapshot.

    Texts that no operation reads are gathered in `terms`. A number is either finite
    or not: JSON writes the latter as null. */
module MarketMaking {
  import opened Decimal
  import opened Outcomes
  import opened Text

  datatype Namespace = Evm | Solana

  datatype Status =
    | Draft | Pending | Approval | Signing | Submitted | Active
    | Completed | Failed | Cancelled | Paused | Stopped

  datatype Action = Pause | Resume | Stop

  datatype Num = Finite(n: int) | NotFinite

  datatype Log = Log(timestamp: string, label_: string, status: Status)

  datatype Order = Order(
    id: string, accountId: string, campaignId: string, status: Status, namespace: Namespace, terms: string,
    placedOrders: Num, successCount: Num, failureCount: Num, cancelCount: Num,
    updatedAt: string, logs: seq<Log>)

  datatype Campaign = Campaign(id: string, name: string, terms: string, participants: Num)

  datatype Activity = Activity(id: string, accountId: string, namespace: Namespace, heading: string)

  datatype OrderDraft = OrderDraft(campaignId: string, namespace: Option<Namespace>, terms: string)

  datatype State = State(
    campaignSequence: nat, orderSequence: nat, campaigns: seq<Campaign>, orders: seq<Order>,
    activity: seq<Activity>, draft: Option<OrderDraft>)

  const INITIAL := State(0, 3000, [], [], [], None)

  // ---- lookups ----

  function Ids(orders: seq<Order>): set<string> { set o | o in orders :: o.id }

  ghost predicate DistinctIds(orders: seq<Order>) {
    forall i, j | 0 <= i < j < |orders| :: orders[i].id != orders[j].id
  }

  function Find(orders: seq<Order>, id: string): (r: Option<Order>)
    ensures r.Some? ==> r.value in orders && r.value.id == id
    ensures r.None? ==> id !in Ids(orders)
  {
    if orders == [] then None
    else if orders[0].id == id then Some(orders[0])
    else
      var r := Find(orders[1..], id);
      assert orders == [orders[0]] + orders[1..];
      r
  }

  /** `sessionOrders.find(..) ?? mockOrders.find(..)`. */
  function CurrentOrder(seeds: seq<Order>, orders: seq<Order>, id: string): Option<Order> {
    if Find(orders, id).Some? then Find(orders, id) else Find(seeds, id)
  }

  function NotIn(seeds: seq<Order>, ids: set<string>): seq<Order> {
    if seeds == [] then [] else (if seeds[0].id in ids then [] else [seeds[0]]) + NotIn(seeds[1..], ids)
  }

  /** The derived store of all orders: session orders, then the seeds they do not replace. */
  function AllOrders(seeds: seq<Order>, orders: seq<Order>): seq<Order> {
    orders + NotIn(seeds, Ids(orders))
  }

  // ---- the lifecycle of one order ----

  predicate Allowed(status: Status, action: Action) {
    match action
    case Pause => status.Active?
    case Resume => status.Paused? || status.Stopped?
    case Stop => status.Active?
  }

  function StatusAfter(action: Action): Status {
    match action
    case Pause => Paused
    case Resume => Active
    case Stop => Stopped
  }

  function LabelOf(action: Action): string {
    match action
    case Pause => "Placement paused"
    case Resume => "Placement resumed"
    case Stop => "Placement stopped"
  }

  function LifecycleMinute(logCount: nat): string { Fixed(if logCount < 59 then logCount else 59, 2) }

  function LifecycleTimestamp(logCount: nat): string { "2026-05-23 10:" + LifecycleMinute(logCount) }

  function Increment(n: Num): Num { if n.Finite? then Finite(n.n + 1) else NotFinite }

  function Next(o: Order, action: Action): Order {
    var timestamp := LifecycleTimestamp(|o.logs|);
    o.(status := StatusAfter(action), updatedAt := timestamp,
       cancelCount := if action.Stop? then Increment(o.cancelCount) else o.cancelCount,
       logs := o.logs + [Log(timestamp, LabelOf(action), StatusAfter(action))])
  }

  function Replaced(orders: seq<Order>, o: Order): (r: seq<Order>)
    ensures |r| == |orders|
    ensures forall i | 0 <= i < |r| :: r[i] == if orders[i].id == o.id then o else orders[i]
  {
    if orders == [] then []
    else [if orders[0].id == o.id then o else orders[0]] + Replaced(orders[1..], o)
  }

  /** Prepend an order that is new to the session, or replace it in place. */
  function Put(orders: seq<Order>, o: Order): seq<Order> {
    if Find(orders, o.id).None? then [o] + orders else Replaced(orders, o)
  }

  // ---- operations ----

  function OrderId(namespace: Namespace, sequence: nat): string {
    (if namespace.Evm? then "MM-EVM-" else "MM-SOLANA-") + Digits(sequence)
  }

  function NewLogs(): seq<Log> {
    [Log("2026-05-23 09:18", "Order created", Pending), Log("2026-05-23 09:19", "Mock approval visible", Approval),
     Log("2026-05-23 09:20", "Mock signing visible", Signing), Log("2026-05-23 09:21", "Submitted", Submitted),
     Log("2026-05-23 09:22", "Status update", Active)]
  }

  function NewOrder(id: string, campaignId: string, namespace: Namespace, accountId: string, terms: string): Order {
    Order(id, accountId, campaignId, Active, namespace, terms, Finite(0), Finite(0), Finite(0), Finite(0),
          "2026-05-23 09:22", NewLogs())
  }

  function CreateOrder(s: State, campaignId: string, namespace: Namespace, accountId: string, terms: string): State {
    var sequence := s.orderSequence + 1;
    var order := NewOrder(OrderId(namespace, sequence), campaignId, namespace, accountId, terms);
    s.(orderSequence := sequence, orders := [order] + s.orders, draft := None,
       activity := [Activity("activity-order-" + order.id, accountId, namespace, "Market-making order"),
                    Activity("activity-campaign-join-" + order.id, accountId, namespace,
                      "Campaign joined")] + s.activity)
  }

  function Transition(seeds: seq<Order>, s: State, id: string, action: Action): (State, Option<Order>) {
    var current := CurrentOrder(seeds, s.orders, id);
    if current.None? || !Allowed(current.value.status, action) then (s, None) else
      var updated := Next(current.value, action);
      (s.(orders := Put(s.orders, updated),
          activity := [LifecycleActivity(updated, action)] + s.activity), Some(updated))
  }

  function LifecycleActivity(updated: Order, action: Action): Activity
    requires updated.logs != []
  {
    Activity("activity-order-lifecycle-" + updated.id + "-10-" + LifecycleMinute(|updated.logs| - 1),
             updated.accountId, updated.namespace, LabelOf(action))
  }

  function CreateCampaign(s: State, slug: string, name: string, terms: string, namespace: Namespace,
                          accountId: string): State {
    var sequence := s.campaignSequence + 1;
    var campaign := Campaign(slug + "-" + Digits(sequence), Trim(name), terms, Finite(1));
    s.(campaignSequence := sequence, campaigns := [campaign] + s.campaigns,
       activity := [Activity("activity-campaign-" + campaign.id, accountId, namespace,
         "Campaign created")] + s.activity)
  }

  // ---- the snapshot ----

  /** What JSON leaves of the numbers that are not finite fails the type guards. */
  predicate IsMockOrder(o: Order) {
    o.placedOrders.Finite? && o.successCount.Finite? && o.failureCount.Finite? && o.cancelCount.Finite?
  }

  predicate IsMockCampaign(c: Campaign) { c.participants.Finite? }

  function KeepOrders(orders: seq<Order>): seq<Order> {
    if orders == [] then [] else (if IsMockOrder(orders[0]) then [orders[0]] else []) + KeepOrders(orders[1..])
  }

  function KeepCampaigns(campaigns: seq<Campaign>): seq<Campaign> {
    if campaigns == [] then []
    else (if IsMockCampaign(campaigns[0]) then [campaigns[0]] else []) + KeepCampaigns(campaigns[1..])
  }

  /** restoreMarketMakingSession of what persistMarketMakingSession wrote. */
  function Restored(s: State): State {
    s.(campaigns := KeepCampaigns(s.campaigns), orders := KeepOrders(s.orders))
  }

  class MarketMakingStore {
    const mockOrders: seq<Order>
    var campaignSequence: nat
    var orderSequence: nat
    var sessionCampaigns: seq<Campaign>
    var sessionOrders: seq<Order>
    var sessionActivity: seq<Activity>
    var orderDraft: Option<OrderDraft>
    /** The snapshot in session storage. */
    var stored: Option<State>

    ghost function View(): State
      reads this
    {
      State(campaignSequence, orderSequence, sessionCampaigns, sessionOrders, sessionActivity, orderDraft)
    }

    constructor (mockOrders: seq<Order>)
      ensures View() == INITIAL && stored == None && this.mockOrders == mockOrders
    {
      this.mockOrders := mockOrders;
      campaignSequence, orderSequence, sessionCampaigns, sessionOrders := 0, 3000, [], [];
      sessionActivity, orderDraft, stored := [], None, None;
    }

    method Persist()
      modifies this`stored
      ensures stored == Some(View())
    {
      stored := Some(State(campaignSequence, orderSequence, sessionCampaigns, sessionOrders, sessionActivity,
        orderDraft));
    }

    /** A page reload: the stores start afresh and the snapshot, if any, is read back. */
    method Reload()
      modifies this
      ensures View() == (if old(stored).Some? then Restored(old(stored).value) else INITIAL) && stored == old(stored)
    {
      campaignSequence, orderSequence, sessionCampaigns, sessionOrders := 0, 3000, [], [];
      sessionActivity, orderDraft := [], None;
      if stored.Some? {
        var snapshot := stored.value;
        campaignSequence, orderSequence := snapshot.campaignSequence, snapshot.orderSequence;
        sessionCampaigns, sessionOrders := KeepCampaigns(snapshot.campaigns), KeepOrders(snapshot.orders);
        sessionActivity, orderDraft := snapshot.activity, snapshot.draft;
      }
    }

    method SaveOrderDraft(draft: Option<OrderDraft>)
      modifies this
      ensures View() == old(View()).(draft := draft) && stored == Some(View())
    {
      orderDraft := draft;
      Persist();
    }

    method CreateMockOrder(campaignId: string, namespace: Namespace, accountId: string,
                           terms: string) returns (order: Order)
      modifies this
      ensures View() == CreateOrder(old(View()), campaignId, namespace, accountId, terms)
      ensures sessionOrders == [order] + old(sessionOrders) && stored == Some(View())
    {
      var sequence := orderSequence + 1;
      orderSequence := sequence;
      order := NewOrder(OrderId(namespace, sequence), campaignId, namespace, accountId, terms);
      sessionOrders := [order] + sessionOrders;
      sessionActivity := [Activity("activity-order-" + order.id, accountId, namespace, "Market-making order"),
                          Activity("activity-campaign-join-" + order.id, accountId, namespace, "Campaign joined")]
                         + sessionActivity;
      SaveOrderDraft(None);
      Persist();
    }

    method TransitionOrderLifecycle(orderId: string, action: Action) returns (r: Option<Order>)
      modifies this
      ensures (View(), r) == Transition(mockOrders, old(View()), orderId, action)
      ensures stored == if r.Some? then Some(View()) else old(stored)
    {
      var current := CurrentOrder(mockOrders, sessionOrders, orderId);
      if current.None? {
        return None;
      }
      if !Allowed(current.value.status, action) {
        return None;
      }
      var updated := Next(current.value, action);
      var existing := Find(sessionOrders, updated.id);
      if existing.None? {
        sessionOrders := [updated] + sessionOrders;
      } else {
        sessionOrders := Replaced(sessionOrders, updated);
      }
      sessionActivity := [LifecycleActivity(updated, action)] + sessionActivity;
      Persist();
      r := Some(updated);
    }

    method CreateMockCampaign(slug: string, name: string, terms: string, namespace: Namespace, accountId: string)
      modifies this
      ensures View() == CreateCampaign(old(View()), slug, name, terms, namespace, accountId) && stored == Some(View())
    {
      var sequence := campaignSequence + 1;
      campaignSequence := sequence;
      var campaign := Campaign(slug + "-" + Digits(sequence), Trim(name), terms, Finite(1));
      sessionCampaigns := [campaign] + sessionCampaigns;
      sessionActivity :=
        [Activity("activity-campaign-" + campaign.id, accountId, namespace, "Campaign created")] + sessionActivity;
      Persist();
    }
  }
}
