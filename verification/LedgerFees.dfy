/** The fees of a balance. Refunds stop at zero, so unlike the sums fees depend on the
    order of the entries; when two histories of fees meet again. */
module LedgerFees {
  import opened BalanceLedger
  import opened Outcomes

  /** The fees after `xs`, from `fee` before it. */
  function Fees(fee: real, xs: seq<Entry>, pool: seq<Entry>): real {
    if xs == [] then fee else
      var e := xs[|xs| - 1];
      NextFee(Fees(fee, xs[..|xs| - 1], pool), e.kind, e.amount, KindOf(pool, e.reversalOf))
  }

  predicate Refunds(e: Entry, pool: seq<Entry>) {
    e.kind.Reversal? && ReversalRefundsFee(KindOf(pool, e.reversalOf))
  }

  /** The refund at `j` takes all the fees there are. */
  predicate Clears(fee: real, xs: seq<Entry>, pool: seq<Entry>, j: nat)
    requires j < |xs|
  {
    Refunds(xs[j], pool) && Fees(fee, xs[..j], pool) <= Abs(xs[j].amount)
  }

  lemma {:induction false} ReplayFees(xs: seq<Entry>, pool: seq<Entry>)
    ensures Replay(xs, pool).feePaid == Fees(0.0, xs, pool)
  {
    hide Effect, Realized, NextFee;
    if xs != [] { ReplayFees(xs[..|xs| - 1], pool); }
  }

  lemma {:induction false} FeesOfJoined(fee: real, xs: seq<Entry>, ys: seq<Entry>, pool: seq<Entry>)
    ensures Fees(fee, xs + ys, pool) == Fees(Fees(fee, xs, pool), ys, pool)
  {
    hide NextFee;
    if ys == [] {
      assert xs + ys == xs;
    } else {
      var init := ys[..|ys| - 1];
      assert (xs + ys)[..|xs + ys| - 1] == xs + init;
      FeesOfJoined(fee, xs, init, pool);
    }
  }

  lemma ClearsInit(fee: real, xs: seq<Entry>, pool: seq<Entry>, j: nat)
    requires j < |xs| - 1
    ensures Clears(fee, xs[..|xs| - 1], pool, j) <==> Clears(fee, xs, pool, j)
  {
    assert xs[..|xs| - 1][..j] == xs[..j];
  }

  predicate ClearedLater(fee: real, xs: seq<Entry>, pool: seq<Entry>) {
    exists j | 0 <= j < |xs| :: Clears(fee, xs, pool, j)
  }

  /** More fees stay more, and the same entries bring two histories together exactly at a
      refund that clears the larger. */
  lemma {:induction false} FeesMeet(low: real, high: real, xs: seq<Entry>, pool: seq<Entry>)
    requires low <= high
    ensures Fees(low, xs, pool) <= Fees(high, xs, pool)
    ensures Fees(low, xs, pool) == Fees(high, xs, pool)
      <==> low == high || ClearedLater(high, xs, pool)
  {
    hide Fees, Clears;
    if xs == [] {
      NoEntriesNoFees(low, pool);
      NoEntriesNoFees(high, pool);
    } else {
      var init, n := xs[..|xs| - 1], |xs| - 1;
      FeesMeet(low, high, init, pool);
      LastFee(low, high, xs, pool);
      forall j | 0 <= j < n ensures Clears(high, init, pool, j) <==> Clears(high, xs, pool, j) {
        ClearsInit(high, xs, pool, j);
      }
      if Clears(high, xs, pool, n) { assert exists j | 0 <= j < |xs| :: Clears(high, xs, pool, j); }
      else if j :| 0 <= j < n && Clears(high, init, pool, j) { assert Clears(high, xs, pool, j); }
    }
  }

  lemma NoEntriesNoFees(fee: real, pool: seq<Entry>)
    ensures Fees(fee, [], pool) == fee
  {
  }

  lemma LastFee(low: real, high: real, xs: seq<Entry>, pool: seq<Entry>)
    requires xs != [] && Fees(low, xs[..|xs| - 1], pool) <= Fees(high, xs[..|xs| - 1], pool)
    ensures Fees(low, xs, pool) <= Fees(high, xs, pool)
    ensures Fees(low, xs, pool) == Fees(high, xs, pool)
      <==> Fees(low, xs[..|xs| - 1], pool) == Fees(high, xs[..|xs| - 1], pool) || Clears(high, xs, pool, |xs| - 1)
  {
    hide KindOf;
  }

  // ---- refunds that only one side knows about ----

  /** `all` finds an entry that the refund at `i` reverses, `some` does not, and there
      are fees to take. */
  predicate Missed(xs: seq<Entry>, all: seq<Entry>, some: seq<Entry>, i: nat)
    requires i < |xs|
  {
    Refunds(xs[i], all) && !Refunds(xs[i], some) && Fees(0.0, xs[..i], all) > 0.0
  }

  /** Each missed refund is followed by a known one that clears all fees. */
  predicate MissesAreCleared(xs: seq<Entry>, all: seq<Entry>, some: seq<Entry>) {
    forall i | 0 <= i < |xs| && Missed(xs, all, some, i) :: exists j | i < j < |xs| :: Clears(0.0, xs, some, j)
  }

  lemma MissedInit(xs: seq<Entry>, all: seq<Entry>, some: seq<Entry>, i: nat)
    requires i < |xs| - 1
    ensures Missed(xs[..|xs| - 1], all, some, i) <==> Missed(xs, all, some, i)
  {
    assert xs[..|xs| - 1][..i] == xs[..i];
  }

  lemma MissesAreClearedLast(xs: seq<Entry>, all: seq<Entry>, some: seq<Entry>)
    requires xs != []
    ensures MissesAreCleared(xs, all, some) <==>
      if Missed(xs, all, some, |xs| - 1) then false
      else Clears(0.0, xs, some, |xs| - 1) || MissesAreCleared(xs[..|xs| - 1], all, some)
  {
    hide Missed, Clears;
    var init, n := xs[..|xs| - 1], |xs| - 1;
    forall i | 0 <= i < n
      ensures Missed(init, all, some, i) <==> Missed(xs, all, some, i)
      ensures Clears(0.0, init, some, i) <==> Clears(0.0, xs, some, i)
    {
      MissedInit(xs, all, some, i);
      ClearsInit(0.0, xs, some, i);
    }
    if !Missed(xs, all, some, n) {
      if Clears(0.0, xs, some, n) {
        assert MissesAreCleared(xs, all, some);
      } else if MissesAreCleared(init, all, some) {
        forall i | 0 <= i < |xs| && Missed(xs, all, some, i)
          ensures exists j | i < j < |xs| :: Clears(0.0, xs, some, j)
        {
          var j :| i < j < n && Clears(0.0, init, some, j);
          assert Clears(0.0, xs, some, j);
        }
      } else if MissesAreCleared(xs, all, some) {
        forall i | 0 <= i < n && Missed(init, all, some, i) ensures exists j | i < j < n :: Clears(0.0, init, some, j) {
          var j :| i < j < |xs| && Clears(0.0, xs, some, j);
          assert Clears(0.0, init, some, j);
        }
        assert false;
      }
    }
  }

  lemma LastFees(xs: seq<Entry>, all: seq<Entry>, some: seq<Entry>)
    requires xs != [] && xs[|xs| - 1].amount != 0.0 && (Refunds(xs[|xs| - 1], some) ==> Refunds(xs[|xs| - 1], all))
    requires 0.0 <= Fees(0.0, xs[..|xs| - 1], all) <= Fees(0.0, xs[..|xs| - 1], some)
    ensures 0.0 <= Fees(0.0, xs, all) <= Fees(0.0, xs, some)
    ensures Fees(0.0, xs, all) == Fees(0.0, xs, some) <==>
      if Missed(xs, all, some, |xs| - 1) then false
      else Clears(0.0, xs, some, |xs| - 1)
           || Fees(0.0, xs[..|xs| - 1], all) == Fees(0.0, xs[..|xs| - 1], some)
  {
    hide KindOf;
  }

  /** Not knowing some refunds never shows fewer fees, and shows the same exactly when
      each missed one is followed by a known one that clears them. */
  lemma {:induction false} FeesWithMisses(xs: seq<Entry>, all: seq<Entry>, some: seq<Entry>)
    requires forall e <- xs :: e.amount != 0.0 && (Refunds(e, some) ==> Refunds(e, all))
    ensures 0.0 <= Fees(0.0, xs, all) <= Fees(0.0, xs, some)
    ensures Fees(0.0, xs, all) == Fees(0.0, xs, some) <==> MissesAreCleared(xs, all, some)
  {
    hide Fees, Refunds, Missed, Clears, MissesAreCleared;
    if xs == [] {
      NoEntriesNoFees(0.0, all);
      NoEntriesNoFees(0.0, some);
      assert MissesAreCleared([], all, some) by { NothingMissed(all, some); }
    } else {
      var init := xs[..|xs| - 1];
      assert xs[|xs| - 1] in xs;
      assert forall e <- init :: e in xs;
      FeesWithMisses(init, all, some);
      LastFees(xs, all, some);
      MissesAreClearedLast(xs, all, some);
    }
  }

  lemma NothingMissed(all: seq<Entry>, some: seq<Entry>)
    ensures MissesAreCleared([], all, some)
  {
  }

  /** Two entries of one time may be rebuilt in either order. For a fee and any refund,
      whatever comes before and after: the two orders give the same fees exactly when at
      least the refund was paid before, or a later refund clears all fees. */
  lemma TiedFeeRefund(before: seq<Entry>, fee: Entry, refund: Entry, after: seq<Entry>, pool: seq<Entry>)
    requires IsFee(fee.kind) && fee.amount != 0.0 && Refunds(refund, pool)
    ensures var (paid, back) := (Fees(0.0, before, pool), Abs(refund.amount));
      var most := Max(paid - back, 0.0) + Abs(fee.amount);
      Replay(before + [fee, refund] + after, pool).feePaid == Replay(before + [refund, fee] + after, pool).feePaid <==>
      (paid >= back || ClearedLater(most, after, pool))
  {
    hide Replay, ClearedLater, Fees, KindOf;
    ReplayFees(before + [fee, refund] + after, pool);
    ReplayFees(before + [refund, fee] + after, pool);
    var paid := Fees(0.0, before, pool);
    FeesOfJoined(0.0, before + [fee, refund], after, pool);
    FeesOfJoined(0.0, before + [refund, fee], after, pool);
    FeesOfJoined(0.0, before, [fee, refund], pool);
    FeesOfJoined(0.0, before, [refund, fee], pool);
    FeesArePaid(before, pool);
    FeesOfPair(paid, fee, refund, pool);
    FeesOfPair(paid, refund, fee, pool);
    var (charged, back) := (Abs(fee.amount), Abs(refund.amount));
    var most := Max(paid - back, 0.0) + charged;
    assert Fees(paid, [fee, refund], pool) == Max(paid + charged - back, 0.0);
    assert Fees(paid, [refund, fee], pool) == most;
    FeesMeet(Fees(paid, [fee, refund], pool), most, after, pool);
    assert Fees(0.0, before + [fee, refund] + after, pool) == Fees(Max(paid + charged - back, 0.0), after, pool);
    assert Fees(0.0, before + [refund, fee] + after, pool) == Fees(most, after, pool);
    assert Max(paid + charged - back, 0.0) == most <==> paid >= back;
  }

  lemma FeesOfPair(fee: real, a: Entry, b: Entry, pool: seq<Entry>)
    ensures Fees(fee, [a, b], pool)
      == NextFee(NextFee(fee, a.kind, a.amount, KindOf(pool, a.reversalOf)), b.kind, b.amount,
        KindOf(pool, b.reversalOf))
  {
    hide KindOf, NextFee;
    assert [a, b][..1] == [a];
    assert [a][..0] == [];
    assert Fees(fee, [a], pool) == NextFee(fee, a.kind, a.amount, KindOf(pool, a.reversalOf));
  }

  lemma {:induction false} FeesArePaid(xs: seq<Entry>, pool: seq<Entry>)
    ensures Fees(0.0, xs, pool) >= 0.0
  {
    hide KindOf;
    if xs != [] { FeesArePaid(xs[..|xs| - 1], pool); }
  }

  // ---- every order of entries with equal times ----

  predicate Charges(e: Entry) { IsFee(e.kind) }

  /** Sorted by time, and of one time the charges first. */
  predicate ChargesFirst(xs: seq<Entry>, pool: seq<Entry>) {
    && Chronological(xs)
    && forall i, j | 0 <= i < j < |xs| && xs[i].createdAt == xs[j].createdAt ::
      !(Refunds(xs[i], pool) && Charges(xs[j]))
  }

  /** Sorted by time, and of one time the refunds first. */
  predicate RefundsFirst(xs: seq<Entry>, pool: seq<Entry>) {
    && Chronological(xs)
    && forall i, j | 0 <= i < j < |xs| && xs[i].createdAt == xs[j].createdAt ::
      !(Charges(xs[i]) && Refunds(xs[j], pool))
  }

  function FeeAfter(fee: real, e: Entry, pool: seq<Entry>): real {
    NextFee(fee, e.kind, e.amount, KindOf(pool, e.reversalOf))
  }

  /** Exchanging two entries: a refund before a charge leaves at least as much as after
      it, and nothing else makes a difference. */
  lemma FeesExchange(fee: real, a: Entry, b: Entry, pool: seq<Entry>)
    requires fee >= 0.0
    ensures FeeAfter(FeeAfter(fee, a, pool), b, pool) >= FeeAfter(FeeAfter(fee, b, pool), a, pool)
      || (Charges(a) && Refunds(b, pool))
    ensures FeeAfter(FeeAfter(fee, a, pool), b, pool) <= FeeAfter(FeeAfter(fee, b, pool), a, pool)
      || (Refunds(a, pool) && Charges(b))
  {
    hide KindOf;
  }

  lemma FeesOfMore(fee: real, xs: seq<Entry>, e: Entry, pool: seq<Entry>)
    ensures Fees(fee, xs + [e], pool) == FeeAfter(Fees(fee, xs, pool), e, pool)
  {
    hide KindOf, NextFee;
    assert (xs + [e])[..|xs|] == xs;
  }

  lemma FeeGrows(low: real, high: real, e: Entry, pool: seq<Entry>)
    requires low <= high
    ensures FeeAfter(low, e, pool) <= FeeAfter(high, e, pool)
    ensures low >= 0.0 ==> FeeAfter(low, e, pool) >= 0.0
  {
    hide KindOf;
  }

  /** Moving an entry behind others never raises the fees, unless it is a charge and they
      hold a refund; and never lowers them, unless it is a refund and they hold a charge. */
  lemma {:induction false} MoveToEnd(fee: real, e: Entry, ys: seq<Entry>, pool: seq<Entry>)
    requires fee >= 0.0
    ensures (!Charges(e) || forall y <- ys :: !Refunds(y, pool)) ==>
      Fees(fee, [e] + ys, pool) >= Fees(fee, ys + [e], pool)
    ensures (!Refunds(e, pool) || forall y <- ys :: !Charges(y)) ==>
      Fees(fee, [e] + ys, pool) <= Fees(fee, ys + [e], pool)
  {
    hide Fees, FeeAfter, Refunds, Charges, KindOf;
    if ys == [] {
      assert [e] + ys == ys + [e];
    } else {
      var (init, last) := (ys[..|ys| - 1], ys[|ys| - 1]);
      assert last in ys && forall y <- init :: y in ys;
      assert ys == init + [last] && [e] + ys == ([e] + init) + [last];
      MoveToEnd(fee, e, init, pool);
      FeesOfMore(fee, [e] + init, last, pool);
      FeesOfMore(fee, init + [e], last, pool);
      FeesOfMore(fee, init, e, pool);
      FeesOfMore(fee, ys, e, pool);
      FeesOfMore(fee, init, last, pool);
      FeesStayPaid(fee, init, pool);
      FeesExchange(Fees(fee, init, pool), e, last, pool);
      if Fees(fee, [e] + init, pool) <= Fees(fee, init + [e], pool) {
        FeeGrows(Fees(fee, [e] + init, pool), Fees(fee, init + [e], pool), last, pool);
      }
      if Fees(fee, [e] + init, pool) >= Fees(fee, init + [e], pool) {
        FeeGrows(Fees(fee, init + [e], pool), Fees(fee, [e] + init, pool), last, pool);
      }
    }
  }

  lemma {:induction false} FeesStayPaid(fee: real, xs: seq<Entry>, pool: seq<Entry>)
    requires fee >= 0.0
    ensures Fees(fee, xs, pool) >= 0.0
  {
    hide KindOf;
    if xs != [] { FeesStayPaid(fee, xs[..|xs| - 1], pool); }
  }

  lemma PlaceOfLast(xs: seq<Entry>, ys: seq<Entry>) returns (i: nat)
    requires xs != [] && multiset(xs) == multiset(ys)
    ensures i < |ys| && ys[i] == xs[|xs| - 1]
  {
    assert xs[|xs| - 1] in multiset(ys);
    i :| 0 <= i < |ys| && ys[i] == xs[|xs| - 1];
  }

  lemma StillChronological(ys: seq<Entry>, i: nat)
    requires Chronological(ys) && i < |ys|
    ensures Chronological(ys[..i] + ys[i + 1..])
  {
    var rest := ys[..i] + ys[i + 1..];
    forall a, b | 0 <= a < b < |rest| ensures rest[a].createdAt <= rest[b].createdAt {
      assert rest[a] == ys[if a < i then a else a + 1] && rest[b] == ys[if b < i then b else b + 1];
    }
  }

  lemma RemovedAt(xs: seq<Entry>, ys: seq<Entry>, i: nat)
    requires xs != [] && multiset(xs) == multiset(ys) && i < |ys| && ys[i] == xs[|xs| - 1] && Chronological(ys)
    ensures multiset(xs[..|xs| - 1]) == multiset(ys[..i] + ys[i + 1..]) && Chronological(ys[..i] + ys[i + 1..])
  {
    hide Chronological;
    StillChronological(ys, i);
    assert xs == xs[..|xs| - 1] + [xs[|xs| - 1]];
    assert ys == ys[..i] + [ys[i]] + ys[i + 1..];
    assert multiset(ys) == multiset(ys[..i]) + multiset{ys[i]} + multiset(ys[i + 1..]);
    assert multiset(xs) == multiset(xs[..|xs| - 1]) + multiset{xs[|xs| - 1]};
    assert multiset(ys[..i] + ys[i + 1..]) == multiset(ys[..i]) + multiset(ys[i + 1..]);
    assert multiset(ys[..i] + ys[i + 1..]) == multiset(ys) - multiset{ys[i]};
    assert multiset(xs[..|xs| - 1]) == multiset(xs) - multiset{ys[i]};
  }

  /** What comes after the other list's last entry has its time, and comes before it there. */
  lemma TiedBefore(xs: seq<Entry>, ys: seq<Entry>, i: nat, y: Entry)
    requires Chronological(xs) && Chronological(ys) && multiset(xs) == multiset(ys)
    requires xs != [] && i < |ys| && ys[i] == xs[|xs| - 1] && y in ys[i + 1..]
    ensures y.createdAt == ys[i].createdAt && exists k | 0 <= k < |xs| - 1 :: xs[k] == y
  {
    RemovedAt(xs, ys, i);
    assert y in ys[..i] + ys[i + 1..];
    assert y in multiset(xs[..|xs| - 1]);
    var j :| 0 <= j < |ys[i + 1..]| && ys[i + 1..][j] == y;
    assert ys[i + 1 + j] == y;
  }

  lemma ChargesFirstMeans(xs: seq<Entry>, pool: seq<Entry>)
    requires ChargesFirst(xs, pool)
    ensures Chronological(xs) && (xs != [] ==> ChargesFirst(xs[..|xs| - 1], pool))
  {
    hide Refunds, Charges;
  }

  lemma RefundsFirstMeans(xs: seq<Entry>, pool: seq<Entry>)
    requires RefundsFirst(xs, pool)
    ensures Chronological(xs) && (xs != [] ==> RefundsFirst(xs[..|xs| - 1], pool))
  {
    hide Refunds, Charges;
  }

  lemma NoRefundBehind(low: seq<Entry>, xs: seq<Entry>, i: nat, pool: seq<Entry>)
    requires ChargesFirst(low, pool) && Chronological(xs) && multiset(low) == multiset(xs)
    requires low != [] && i < |xs| && xs[i] == low[|low| - 1] && Charges(xs[i])
    ensures forall y <- xs[i + 1..] :: !Refunds(y, pool)
  {
    hide Refunds, Charges;
    forall y | y in xs[i + 1..] ensures !Refunds(y, pool) { TiedBefore(low, xs, i, y); }
  }

  lemma NoChargeBehind(high: seq<Entry>, xs: seq<Entry>, i: nat, pool: seq<Entry>)
    requires RefundsFirst(high, pool) && Chronological(xs) && multiset(high) == multiset(xs)
    requires high != [] && i < |xs| && xs[i] == high[|high| - 1] && Refunds(xs[i], pool)
    ensures forall y <- xs[i + 1..] :: !Charges(y)
  {
    hide Refunds, Charges;
    forall y | y in xs[i + 1..] ensures !Charges(y) { TiedBefore(high, xs, i, y); }
  }

  /** Of all orders of the same entries by time, charges first gives the least fees. */
  lemma {:induction false} ChargesFirstIsLeast(low: seq<Entry>, xs: seq<Entry>, pool: seq<Entry>)
    requires ChargesFirst(low, pool) && Chronological(xs) && multiset(low) == multiset(xs)
    ensures Fees(0.0, low, pool) <= Fees(0.0, xs, pool)
    decreases |low|
  {
    hide Fees, FeeAfter, Refunds, Charges, KindOf, ChargesFirst, Chronological;
    ChargesFirstMeans(low, pool);
    assert |multiset(low)| == |low| && |multiset(xs)| == |xs|;
    if low != [] {
      var (init, e) := (low[..|low| - 1], low[|low| - 1]);
      var i := PlaceOfLast(low, xs);
      var (front, back) := (xs[..i], xs[i + 1..]);
      RemovedAt(low, xs, i);
      ChargesFirstIsLeast(init, front + back, pool);
      assert xs == front + ([e] + back) && (front + back) + [e] == front + (back + [e]);
      FeesOfJoined(0.0, front, [e] + back, pool);
      FeesOfJoined(0.0, front, back + [e], pool);
      FeesStayPaid(0.0, front, pool);
      MoveToEnd(Fees(0.0, front, pool), e, back, pool);
      if Charges(e) { NoRefundBehind(low, xs, i, pool); }
      FeesOfMore(0.0, front + back, e, pool);
      FeesOfMore(0.0, init, e, pool);
      assert low == init + [e];
      FeeGrows(Fees(0.0, init, pool), Fees(0.0, front + back, pool), e, pool);
    }
  }

  /** Refunds first gives the most. */
  lemma {:induction false} RefundsFirstIsMost(high: seq<Entry>, xs: seq<Entry>, pool: seq<Entry>)
    requires RefundsFirst(high, pool) && Chronological(xs) && multiset(high) == multiset(xs)
    ensures Fees(0.0, high, pool) >= Fees(0.0, xs, pool)
    decreases |high|
  {
    hide Fees, FeeAfter, Refunds, Charges, KindOf, RefundsFirst, Chronological;
    RefundsFirstMeans(high, pool);
    assert |multiset(high)| == |high| && |multiset(xs)| == |xs|;
    if high != [] {
      var (init, e) := (high[..|high| - 1], high[|high| - 1]);
      var i := PlaceOfLast(high, xs);
      var (front, back) := (xs[..i], xs[i + 1..]);
      RemovedAt(high, xs, i);
      RefundsFirstIsMost(init, front + back, pool);
      assert xs == front + ([e] + back) && (front + back) + [e] == front + (back + [e]);
      FeesOfJoined(0.0, front, [e] + back, pool);
      FeesOfJoined(0.0, front, back + [e], pool);
      FeesStayPaid(0.0, front, pool);
      MoveToEnd(Fees(0.0, front, pool), e, back, pool);
      if Refunds(e, pool) { NoChargeBehind(high, xs, i, pool); }
      FeesOfMore(0.0, front + back, e, pool);
      FeesOfMore(0.0, init, e, pool);
      assert high == init + [e];
      FeeGrows(Fees(0.0, front + back, pool), Fees(0.0, init, pool), e, pool);
    }
  }

  predicate SameKinds(pool1: seq<Entry>, pool2: seq<Entry>, xs: seq<Entry>) {
    forall x <- xs :: KindOf(pool1, x.reversalOf) == KindOf(pool2, x.reversalOf)
  }

  lemma {:induction false} FeesBySameKinds(fee: real, xs: seq<Entry>, pool1: seq<Entry>, pool2: seq<Entry>)
    requires SameKinds(pool1, pool2, xs)
    ensures Fees(fee, xs, pool1) == Fees(fee, xs, pool2)
  {
    hide KindOf, NextFee;
    if xs != [] {
      assert xs[|xs| - 1] in xs;
      assert forall x <- xs[..|xs| - 1] :: x in xs;
      FeesBySameKinds(fee, xs[..|xs| - 1], pool1, pool2);
    }
  }
}
