/** server/src/common/helpers/ledger-order-scope.ts: one ledger order id names a
    user's order and, for dual-account orders, the account it runs on.

    Optional string parameters are strings here: the code sends `undefined`,
    `null` and `''` through `String(x || '')`, which makes them all `""`. */
module LedgerOrderScope {
  import opened Outcomes
  import opened Text

  datatype Scope = Scope(userOrderId: string, ledgerOrderId: string, accountLabel: string)

  datatype ScopeError = BlankLedgerOrderId | BlankUserOrderId | MissingAccountLabel

  const DEFAULT_LABEL := "default"

  predicate IsDualAccountLabel(tag: string) { tag == "maker" || tag == "taker" }

  function NormalizeAccountLabel(accountLabel: string): (r: string)
    ensures Trimmed(r) && r != ""
    ensures Trimmed(accountLabel) && accountLabel != "" ==> r == accountLabel
  {
    var normalized := Trim(accountLabel);
    if normalized != "" then normalized else DEFAULT_LABEL
  }

  function BuildDualAccountLedgerOrderId(userOrderId: string, accountLabel: string): Result<string, ScopeError> {
    var user := Trim(userOrderId);
    var account := NormalizeAccountLabel(accountLabel);
    if user == "" then Err(BlankUserOrderId)
    else if account == DEFAULT_LABEL then Err(MissingAccountLabel)
    else Ok(user + ":" + account)
  }

  /** The last colon of `s` before place `end`, or -1. */
  function LastColonBefore(s: string, end: nat): (i: int)
    requires end <= |s|
    ensures -1 <= i < end
    ensures i >= 0 ==> s[i] == ':'
    ensures forall k | i < k < end :: s[k] != ':'
  {
    if end == 0 then -1 else if s[end - 1] == ':' then end - 1 else LastColonBefore(s, end - 1)
  }

  /** `s.lastIndexOf(':')`. */
  function LastColon(s: string): (i: int)
    ensures -1 <= i < |s|
    ensures i >= 0 ==> s[i] == ':'
    ensures forall k | i < k < |s| :: s[k] != ':'
  {
    LastColonBefore(s, |s|)
  }

  function ResolveLedgerOrderScope(ledgerOrderId: string, userOrderId: string, accountLabel: string)
    : Result<Scope, ScopeError>
  {
    if Trim(ledgerOrderId) == "" then Err(BlankLedgerOrderId)
    else Ok(ResolveTrimmed(Trim(ledgerOrderId), Trim(userOrderId), NormalizeAccountLabel(accountLabel)))
  }

  function ResolveTrimmed(id: string, user: string, account: string): Scope {
    if user != "" then Scope(user, id, account)
    else if account != DEFAULT_LABEL && EndsWith(id, ":" + account) && |id| > |account| + 1 then
      Scope(id[..|id| - |account| - 1], id, account)
    else
      var i := LastColon(id);
      if i > 0 && IsDualAccountLabel(id[i + 1..]) then Scope(id[..i], id, id[i + 1..])
      else Scope(id, id, account)
  }

  /** What the label-free branch does: it splits off a trailing `:maker` or
      `:taker`, and nothing else. */
  lemma SuffixSplit(id: string, tag: string)
    requires IsDualAccountLabel(tag)
    ensures EndsWith(id, ":" + tag) <==> (LastColon(id) >= 0 && id[LastColon(id) + 1..] == tag)
    ensures EndsWith(id, ":" + tag) ==> LastColon(id) == |id| - 6
  {
    var i := LastColon(id);
    if EndsWith(id, ":" + tag) { LastColonIsTheSuffix(id, tag); }
    if i >= 0 && id[i + 1..] == tag {
      assert id[i..] == ":" + tag;
      assert |tag| == 5 && i == |id| - 6;
    }
  }

  lemma LastColonIsTheSuffix(id: string, tag: string)
    requires IsDualAccountLabel(tag) && EndsWith(id, ":" + tag)
    ensures LastColon(id) == |id| - 6 && id[|id| - 5..] == tag
  {
    hide LastColon;
    var tail := id[|id| - 6..];
    assert tail == ":" + tag && tail[0] == ':';
    forall k | |id| - 6 < k < |id| ensures id[k] != ':' { assert id[k] == tail[k - |id| + 6]; }
    assert id[|id| - 5..] == tail[1..];
  }

  lemma AppendedLabel(user: string, tag: string)
    requires user != "" && Trimmed(user) && tag != "" && Trimmed(tag)
    ensures var id := user + ":" + tag;
      Trim(id) == id && EndsWith(id, ":" + tag) && id[..|id| - |tag| - 1] == user
  {
    var id := user + ":" + tag;
    assert id[0] == user[0] && id[|id| - 1] == tag[|tag| - 1];
    assert id[|id| - |tag| - 1..] == ":" + tag;
  }

  /** With its label given, a built id gives back the trimmed user order id and
      label, whatever the label is. */
  lemma BuiltIdResolvesWithItsLabel(userOrderId: string, accountLabel: string)
    requires BuildDualAccountLedgerOrderId(userOrderId, accountLabel).Ok?
    ensures var id := BuildDualAccountLedgerOrderId(userOrderId, accountLabel).value;
      ResolveLedgerOrderScope(id, "", accountLabel)
      == Ok(Scope(Trim(userOrderId), id, NormalizeAccountLabel(accountLabel)))
  {
    AppendedLabel(Trim(userOrderId), NormalizeAccountLabel(accountLabel));
  }

  lemma DualLabelComesOff(id: string, account: string)
    requires IsDualAccountLabel(account) && EndsWith(id, ":" + account) && |id| > 6
    ensures ResolveTrimmed(id, "", DEFAULT_LABEL) == Scope(id[..|id| - 6], id, account)
  {
    hide EndsWith;
    SuffixSplit(id, account);
    assert |account| == 5;
  }

  lemma OtherLabelStaysOn(id: string, account: string)
    requires !IsDualAccountLabel(account) && account != DEFAULT_LABEL
    ensures ResolveTrimmed(id, "", DEFAULT_LABEL).accountLabel != account
  {
    hide EndsWith, LastColon;
  }

  lemma LabelComesOffAlone(user: string, account: string)
    requires user != "" && Trimmed(user) && account != "" && Trimmed(account) && account != DEFAULT_LABEL
    ensures var id := user + ":" + account;
      ResolveTrimmed(id, "", DEFAULT_LABEL) == Scope(user, id, account) <==> IsDualAccountLabel(account)
  {
    hide Trimmed, ResolveTrimmed, EndsWith, Trim;
    var id := user + ":" + account;
    AppendedLabel(user, account);
    if IsDualAccountLabel(account) { DualLabelComesOff(id, account); } else { OtherLabelStaysOn(id, account); }
  }

  lemma DefaultLabel()
    ensures NormalizeAccountLabel("") == DEFAULT_LABEL && Trim("") == ""
  {
    EmptyIsTrimmed();
  }

  /** Without its label, a built id is recovered exactly for the two dual-account labels. */
  lemma BuiltIdResolvesAlone(userOrderId: string, accountLabel: string)
    requires BuildDualAccountLedgerOrderId(userOrderId, accountLabel).Ok?
    ensures var id := BuildDualAccountLedgerOrderId(userOrderId, accountLabel).value;
      ResolveLedgerOrderScope(id, "", "") == Ok(Scope(Trim(userOrderId), id, NormalizeAccountLabel(accountLabel)))
      <==> NormalizeAccountLabel(accountLabel) == "maker" || NormalizeAccountLabel(accountLabel) == "taker"
  {
    hide ResolveTrimmed, Trim, Trimmed, NormalizeAccountLabel, EndsWith;
    DefaultLabel();
    AppendedLabel(Trim(userOrderId), NormalizeAccountLabel(accountLabel));
    LabelComesOffAlone(Trim(userOrderId), NormalizeAccountLabel(accountLabel));
  }

  lemma ResolveTrimmedIsStable(id: string, account: string)
    requires id != ""
    ensures ResolveTrimmed(id, "", ResolveTrimmed(id, "", account).accountLabel) == ResolveTrimmed(id, "", account)
  {
    var i := LastColon(id);
    if i > 0 && IsDualAccountLabel(id[i + 1..]) {
      var tag := id[i + 1..];
      SuffixSplit(id, tag);
      assert ResolveTrimmed(id, "", tag) == Scope(id[..i], id, tag);
    }
  }

  lemma KnownLabelsAreKept(tag: string)
    requires tag == DEFAULT_LABEL || IsDualAccountLabel(tag)
    ensures Trimmed(tag) && tag != ""
  {
    assert tag[0] == 'd' || tag[0] == 'm' || tag[0] == 't';
    assert tag[|tag| - 1] == 't' || tag[|tag| - 1] == 'r';
  }

  lemma ResolvedLabelIsTrimmed(id: string, account: string)
    requires Trimmed(account) && account != ""
    ensures var tag := ResolveTrimmed(id, "", account).accountLabel; Trimmed(tag) && tag != ""
  {
    hide Trimmed, EndsWith, LastColon, IsDualAccountLabel;
    var tag := ResolveTrimmed(id, "", account).accountLabel;
    if tag != account { KnownLabelsAreKept(tag); }
  }

  /** Resolving again with the label that came out changes nothing. */
  lemma ResolveIsStable(ledgerOrderId: string, accountLabel: string)
    requires ResolveLedgerOrderScope(ledgerOrderId, "", accountLabel).Ok?
    ensures var first := ResolveLedgerOrderScope(ledgerOrderId, "", accountLabel);
      ResolveLedgerOrderScope(first.value.ledgerOrderId, "", first.value.accountLabel) == first
  {
    hide ResolveTrimmed, Trim, Trimmed, NormalizeAccountLabel;
    var id, account := Trim(ledgerOrderId), NormalizeAccountLabel(accountLabel);
    assert Trim("") == "" by { EmptyIsTrimmed(); }
    KeepsLedgerOrderId(id, account);
    ResolvedLabelIsTrimmed(id, account);
    ResolveTrimmedIsStable(id, account);
  }

  lemma EmptyIsTrimmed()
    ensures Trimmed("")
  {
  }

  lemma KeepsLedgerOrderId(id: string, account: string)
    ensures ResolveTrimmed(id, "", account).ledgerOrderId == id
  {
  }

  lemma SplitOffSpells(id: string, tag: string)
    requires EndsWith(id, ":" + tag)
    ensures id[..|id| - |tag| - 1] + ":" + tag == id
  {
    assert id == id[..|id| - |tag| - 1] + id[|id| - |tag| - 1..];
  }

  lemma TrimmedPartsSpellTheId(id: string, account: string)
    ensures var s := ResolveTrimmed(id, "", account);
      s.ledgerOrderId == id && (s.userOrderId == id || s.userOrderId + ":" + s.accountLabel == id)
  {
    if account != DEFAULT_LABEL && EndsWith(id, ":" + account) && |id| > |account| + 1 {
      SplitOffSpells(id, account);
    } else {
      var i := LastColon(id);
      if i > 0 { assert id == id[..i] + ":" + id[i + 1..]; }
    }
  }

  /** The two parts always spell the ledger order id again, or it is kept whole. */
  lemma ResolvedPartsSpellTheId(ledgerOrderId: string, accountLabel: string)
    requires ResolveLedgerOrderScope(ledgerOrderId, "", accountLabel).Ok?
    ensures var s := ResolveLedgerOrderScope(ledgerOrderId, "", accountLabel).value;
      && s.ledgerOrderId == Trim(ledgerOrderId)
      && (s.userOrderId == s.ledgerOrderId || s.userOrderId + ":" + s.accountLabel == s.ledgerOrderId)
  {
    TrimmedPartsSpellTheId(Trim(ledgerOrderId), NormalizeAccountLabel(accountLabel));
  }

  /** An order id given by the caller is taken as it is, trimmed. */
  lemma GivenOrderIsKept(ledgerOrderId: string, userOrderId: string, accountLabel: string)
    requires Trim(ledgerOrderId) != "" && Trim(userOrderId) != ""
    ensures var tag := if Trim(accountLabel) == "" then "default" else Trim(accountLabel);
      ResolveLedgerOrderScope(ledgerOrderId, userOrderId, accountLabel)
      == Ok(Scope(Trim(userOrderId), Trim(ledgerOrderId), tag))
  {
    hide Trim, LastColon, EndsWith;
  }

  lemma ResolvedIsTrimmed(ledgerOrderId: string, userOrderId: string, accountLabel: string)
    requires ResolveLedgerOrderScope(ledgerOrderId, userOrderId, accountLabel).Ok?
    ensures var s := ResolveLedgerOrderScope(ledgerOrderId, userOrderId, accountLabel).value;
      && Trimmed(s.ledgerOrderId) && s.ledgerOrderId != "" && Trimmed(s.accountLabel) && s.accountLabel != ""
      && Trim(s.userOrderId) != "" && Trim(ledgerOrderId) != ""
  {
    hide LastColon, EndsWith;
    var (id, user, account) := (Trim(ledgerOrderId), Trim(userOrderId), NormalizeAccountLabel(accountLabel));
    if user == "" {
      ResolvedLabelIsTrimmed(id, account);
      FrontIsNotBlank(id, account);
    }
  }

  lemma FrontIsNotBlank(id: string, account: string)
    requires Trimmed(id) && id != ""
    ensures var user := ResolveTrimmed(id, "", account).userOrderId; user != "" && Trim(user) != ""
  {
    hide EndsWith;
    var user := ResolveTrimmed(id, "", account).userOrderId;
    assert user[0] == id[0];
    StartsNotBlank(user);
  }

  lemma StartsNotBlank(s: string)
    requires s != "" && !IsSpace(s[0])
    ensures Trim(s) != ""
  {
    var i, j := TrimDropsOnlySpace(s);
  }

  /** Resolving a result again with its own order id and label returns it exactly when
      that order id has no white space around it, which can only be where it was cut off
      an id with a space before the label. */
  lemma ResolveWithBothIsStable(ledgerOrderId: string, userOrderId: string, accountLabel: string)
    requires ResolveLedgerOrderScope(ledgerOrderId, userOrderId, accountLabel).Ok?
    ensures var first := ResolveLedgerOrderScope(ledgerOrderId, userOrderId, accountLabel);
      var s := first.value;
      && (ResolveLedgerOrderScope(s.ledgerOrderId, s.userOrderId, s.accountLabel) == first <==> Trimmed(s.userOrderId))
      && (Trim(userOrderId) != "" ==> Trimmed(s.userOrderId))
  {
    hide ResolveLedgerOrderScope, Trimmed, IsSpace;
    var s := ResolveLedgerOrderScope(ledgerOrderId, userOrderId, accountLabel).value;
    ResolvedIsTrimmed(ledgerOrderId, userOrderId, accountLabel);
    assert Trim(s.ledgerOrderId) == s.ledgerOrderId && Trim(s.accountLabel) == s.accountLabel;
    GivenOrderIsKept(s.ledgerOrderId, s.userOrderId, s.accountLabel);
    if Trim(userOrderId) != "" { GivenOrderIsKept(ledgerOrderId, userOrderId, accountLabel); }
  }

  lemma SpaceBeforeLabelIsSuchACase()
    ensures var s := Scope("u1 ", "u1 :maker", "maker");
      ResolveLedgerOrderScope("u1 :maker", "", "") == Ok(s) && !Trimmed(s.userOrderId)
  {
    var id := "u1 :maker";
    assert id[0] == 'u' && id[8] == 'r' && id[3] == ':' && !IsSpace(id[0]) && !IsSpace(id[8]);
    assert Trim(id) == id;
    DefaultLabel();
    assert id[3..] == ":" + "maker" && EndsWith(id, ":" + "maker");
    DualLabelComesOff(id, "maker");
    assert id[..3] == "u1 ";
  }

  /** A built id resolved with its order id and label is resolved as with its label alone. */
  lemma BuiltIdResolvesWithBoth(userOrderId: string, accountLabel: string)
    requires BuildDualAccountLedgerOrderId(userOrderId, accountLabel).Ok?
    ensures var id := BuildDualAccountLedgerOrderId(userOrderId, accountLabel).value;
      && ResolveLedgerOrderScope(id, userOrderId, accountLabel) == ResolveLedgerOrderScope(id, "", accountLabel)
      && ResolveLedgerOrderScope(id, userOrderId, accountLabel) == Ok(Scope(Trim(userOrderId), id, Trim(accountLabel)))
  {
    hide ResolveTrimmed, Trimmed, EndsWith, Trim;
    AppendedLabel(Trim(userOrderId), NormalizeAccountLabel(accountLabel));
    BuiltIdResolvesWithItsLabel(userOrderId, accountLabel);
    GivenOrderIsKept(BuildDualAccountLedgerOrderId(userOrderId, accountLabel).value, userOrderId, accountLabel);
  }

  /** When an id is built, and what it is. */
  lemma BuildsExactly(userOrderId: string, accountLabel: string)
    ensures BuildDualAccountLedgerOrderId(userOrderId, accountLabel) ==
      if Trim(userOrderId) == "" then Err(BlankUserOrderId)
      else if Trim(accountLabel) == "" || Trim(accountLabel) == "default" then Err(MissingAccountLabel)
      else Ok(Trim(userOrderId) + ":" + Trim(accountLabel))
  {
    hide Trim;
  }
}
