/** server/src/common/helpers/client-order-id.ts: `orderId:seq` texts.

    A TypeScript number is `real` here; its printing is exact up to 2^53 and is
    modelled as exact beyond, where parsing refuses the text in either case. */
module ClientOrderId {
  import opened Decimal
  import opened Outcomes
  import opened Text

  datatype Parsed = Parsed(orderId: string, sequence: nat)

  datatype BuildError = BadOrderId | BadSequence

  /** Number.MAX_SAFE_INTEGER. */
  const MAX_SAFE_INTEGER: nat := 9007199254740991

  function BuildClientOrderId(orderId: string, sequence: real): Result<string, BuildError> {
    if orderId == "" || ':' in orderId then Err(BadOrderId)
    else if sequence != sequence.Floor as real || sequence < 0.0 then Err(BadSequence)
    else Ok(orderId + ":" + Digits(sequence.Floor))
  }

  function ParseClientOrderId(clientOrderId: string): Option<Parsed> {
    var parts := Split(clientOrderId, ':');
    if |parts| != 2 || parts[0] == "" then None
    else if parts[1] == "" || !AllDigits(parts[1]) then None
    else if Value(parts[1]) > MAX_SAFE_INTEGER then None
    else Some(Parsed(parts[0], Value(parts[1])))
  }

  lemma DigitsHaveNoColon(s: string)
    requires AllDigits(s)
    ensures ':' !in s
  {
  }

  lemma SplitInTwo(orderId: string, tail: string)
    requires ':' !in orderId && ':' !in tail
    ensures Split(orderId + ":" + tail, ':') == [orderId, tail]
  {
    SplitHead(orderId, ':', tail);
    assert IndexOf(tail, ':') == |tail|;
    assert Split(tail, ':') == [tail];
  }

  /** Everything that can be built is parsed back exactly up to the largest safe
      integer, and refused above it. */
  lemma ParseOfBuild(orderId: string, sequence: nat)
    requires BuildClientOrderId(orderId, sequence as real).Ok?
    ensures ParseClientOrderId(BuildClientOrderId(orderId, sequence as real).value)
      == if sequence <= 9007199254740991 then Some(Parsed(orderId, sequence)) else None
  {
    DigitsHaveNoColon(Digits(sequence));
    SplitInTwo(orderId, Digits(sequence));
    ValueOfDigits(sequence);
  }

  /** No two accepted pairs build the same id, above the safe range as well. */
  lemma BuildIsInjective(o1: string, n1: real, o2: string, n2: real)
    requires BuildClientOrderId(o1, n1).Ok? && BuildClientOrderId(o1, n1) == BuildClientOrderId(o2, n2)
    ensures o1 == o2 && n1 == n2
  {
    DigitsHaveNoColon(Digits(n1.Floor));
    DigitsHaveNoColon(Digits(n2.Floor));
    SplitInTwo(o1, Digits(n1.Floor));
    SplitInTwo(o2, Digits(n2.Floor));
    assert [o1, Digits(n1.Floor)][1] == [o2, Digits(n2.Floor)][1];
    DigitsInjective(n1.Floor, n2.Floor);
  }

  /** Building again from what was parsed gives the text back exactly when its digit
      part has no superfluous leading zero. */
  lemma BuildOfParse(clientOrderId: string)
    requires ParseClientOrderId(clientOrderId).Some?
    ensures var p := ParseClientOrderId(clientOrderId).value;
      && BuildClientOrderId(p.orderId, p.sequence as real).Ok?
      && (BuildClientOrderId(p.orderId, p.sequence as real) == Ok(clientOrderId)
          <==> Canonical(Split(clientOrderId, ':')[1]))
  {
    var parts := Split(clientOrderId, ':');
    JoinSplit(clientOrderId, ':');
    assert parts == [parts[0], parts[1]];
    assert parts[0] in parts;
    assert clientOrderId == parts[0] + ":" + parts[1];
    DigitsOfValue(parts[1]);
    var rebuilt := parts[0] + ":" + Digits(Value(parts[1]));
    assert rebuilt[|parts[0]| + 1..] == Digits(Value(parts[1]));
    assert clientOrderId[|parts[0]| + 1..] == parts[1];
  }

  /** What can be built: a non-empty id without a colon and a non-negative integer. */
  lemma BuildsExactly(orderId: string, sequence: real)
    ensures BuildClientOrderId(orderId, sequence).Ok? <==>
      orderId != "" && ':' !in orderId && sequence >= 0.0 && sequence.Floor as real == sequence
    ensures orderId == "" || ':' in orderId ==> BuildClientOrderId(orderId, sequence) == Err(BadOrderId)
  {
  }

  /** What can be parsed: one colon, something before it, digits only after it, and no more
      than the largest safe integer. */
  lemma ParsesExactly(head: string, tail: string)
    requires ':' !in head
    ensures ParseClientOrderId(head + ":" + tail).Some? <==>
      head != "" && tail != "" && AllDigits(tail) && Value(tail) <= 9007199254740991
    ensures ParseClientOrderId(head) == None
  {
    SplitHead(head, ':', tail);
    if AllDigits(tail) {
      DigitsHaveNoColon(tail);
      SplitInTwo(head, tail);
    }
    assert IndexOf(head, ':') == |head|;
  }
}
