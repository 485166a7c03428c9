/** The seed orders of web3-interface/src/lib/helpers/mock-web3.ts, and that they are
    what the session proofs ask of seed orders. */
module SeedOrders {
  import opened MarketMaking
  import opened OrderLifecycle

  function Seed(id: string, accountId: string, campaignId: string, status: Status, namespace: Namespace,
                counts: (int, int, int, int), updatedAt: string, logs: seq<Log>): Order {
    Order(id, accountId, campaignId, status, namespace, "", Finite(counts.0), Finite(counts.1), Finite(counts.2),
          Finite(counts.3), updatedAt, logs)
  }

  function Order1001(): Order {
    Seed("MM-1001", "evm-primary", "eth-usdc-depth", Active, Evm, (42, 39, 2, 1), "2026-05-23 09:45", [
      Log("2026-05-23 09:00", "Order created", Pending),
      Log("2026-05-23 09:01", "Mock approval completed", Approval),
      Log("2026-05-23 09:02", "Mock signing completed", Signing),
      Log("2026-05-23 09:03", "Submitted", Submitted),
      Log("2026-05-23 09:15", "Order placement cycle", Active),
      Log("2026-05-23 09:45", "Fill update", Active)])
  }

  function Order2001(): Order {
    Seed("MM-2001", "solana-primary", "sol-usdc-growth", Pending, Solana, (0, 0, 0, 0), "2026-05-23 08:32", [
      Log("2026-05-23 08:30", "Order created", Pending),
      Log("2026-05-23 08:31", "Awaiting approval", Approval),
      Log("2026-05-23 08:32", "Status update", Pending)])
  }

  function Order1002(): Order {
    Seed("MM-1002", "evm-primary", "cross-chain-stable", Completed, Evm, (88, 84, 1, 3), "2026-05-23 07:30", [
      Log("2026-05-22 10:00", "Order created", Pending),
      Log("2026-05-22 10:01", "Approval and signing complete", Submitted),
      Log("2026-05-22 10:10", "Order placement cycle", Active),
      Log("2026-05-22 15:45", "Fill update", Active),
      Log("2026-05-23 07:30", "Completed", Completed)])
  }

  function Order1003(): Order {
    Seed("MM-1003", "evm-primary", "eth-usdc-depth", Failed, Evm, (9, 6, 3, 0), "2026-05-21 12:40", [
      Log("2026-05-21 12:00", "Order created", Pending),
      Log("2026-05-21 12:03", "Submitted", Submitted),
      Log("2026-05-21 12:25", "Order placement cycle", Active),
      Log("2026-05-21 12:40", "Failure", Failed)])
  }

  function Order2002(): Order {
    Seed("MM-2002", "solana-primary", "sol-usdc-growth", Cancelled, Solana, (21, 18, 0, 3), "2026-05-20 14:00", [
      Log("2026-05-20 11:20", "Order created", Submitted),
      Log("2026-05-20 11:35", "Order placement cycle", Active),
      Log("2026-05-20 13:10", "Fill update", Active),
      Log("2026-05-20 14:00", "Cancellation", Cancelled)])
  }

  function Order2003(): Order {
    Seed("MM-2003", "solana-primary", "cross-chain-stable", Draft, Solana, (0, 0, 0, 0), "2026-05-23 09:10", [
      Log("2026-05-23 09:10", "Draft saved", Draft)])
  }

  function MockOrders(): seq<Order> {
    [Order1001(), Order2001(), Order1002(), Order1003(), Order2002(), Order2003()]
  }

  lemma SeedIdIsNotMadeHere(id: string, n: nat)
    requires |id| == 7 && '1' <= id[3] <= '2'
    ensures id != OrderId(Evm, n) && id != OrderId(Solana, n)
  {
    assert OrderId(Evm, n)[3] == "MM-EVM-"[3] == 'E';
    assert OrderId(Solana, n)[3] == "MM-SOLANA-"[3] == 'S';
  }

  ghost predicate SeedShape(o: Order, a: char, b: char) {
    |o.id| == 7 && o.id[3] == a && o.id[6] == b && LogTellsStatus(o) && IsMockOrder(o)
  }

  lemma ShapesHold()
    ensures SeedShape(Order1001(), '1', '1') && SeedShape(Order2001(), '2', '1') && SeedShape(Order1002(), '1', '2')
    ensures SeedShape(Order1003(), '1', '3') && SeedShape(Order2002(), '2', '2') && SeedShape(Order2003(), '2', '3')
  {
  }

  /** Every statement about sessions holds of the orders that ship. */
  lemma MockOrdersAreSeeds()
    ensures SeedsOk(MockOrders())
  {
    hide Order1001, Order2001, Order1002, Order1003, Order2002, Order2003, OrderId, LogTellsStatus, IsMockOrder;
    ShapesHold();
    var seeds := MockOrders();
    forall o, n: nat | o in seeds ensures o.id != OrderId(Evm, n) && o.id != OrderId(Solana, n) {
      SeedIdIsNotMadeHere(o.id, n);
    }
  }
}
