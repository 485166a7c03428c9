/** server/src/database/migrations/1780900000000-AddLedgerOrderIdentityFields.ts:
    the two CASE expressions that fill `userOrderId` and `accountLabel` of stored
    rows, and when they agree with the resolver used for new rows. */
module LedgerBackfill {
  import opened LedgerOrderScope
  import opened Outcomes
  import opened Text

  function AsciiLower(c: char): char {
    if 'A' <= c <= 'Z' then (c as int + 32) as char else c
  }

  /** `"orderId" LIKE '%:tag'`: SQLite compares ASCII letters without their case. */
  predicate LikeSuffix(id: string, tag: string) {
    var n := |tag| + 1;
    && n <= |id|
    && id[|id| - n] == ':'
    && forall k | 0 <= k < |tag| :: AsciiLower(id[|id| - |tag| + k]) == tag[k]
  }

  function UserOrderIdFromOrderIdSql(orderId: string): string {
    if LikeSuffix(orderId, "maker") then orderId[..|orderId| - 6]
    else if LikeSuffix(orderId, "taker") then orderId[..|orderId| - 6]
    else orderId
  }

  function AccountLabelFromOrderIdSql(orderId: string, fallback: string): string {
    if LikeSuffix(orderId, "maker") then "maker"
    else if LikeSuffix(orderId, "taker") then "taker"
    else fallback
  }

  /** COALESCE("accountLabel", 'default'); the three tables without a stored label
      use the constant, which is the value for a null label. */
  function Coalesce(stored: Option<string>): string {
    if stored.Some? then stored.value else DEFAULT_LABEL
  }

  function StoredLabel(stored: Option<string>): string {
    if stored.Some? then stored.value else ""
  }

  /** Backfill and resolver give a row the same user order id and account label. */
  predicate Agree(orderId: string, stored: Option<string>) {
    var scope := ResolveLedgerOrderScope(orderId, "", StoredLabel(stored));
    && scope.Ok?
    && scope.value.userOrderId == UserOrderIdFromOrderIdSql(orderId)
    && scope.value.accountLabel == AccountLabelFromOrderIdSql(orderId, Coalesce(stored))
  }

  predicate HasDualSuffix(id: string) { EndsWith(id, ":maker") || EndsWith(id, ":taker") }

  predicate LikeDualSuffix(id: string) { LikeSuffix(id, "maker") || LikeSuffix(id, "taker") }

  /** The resolver cuts a label of another name off the id. */
  predicate CutsCustomLabel(id: string, account: string) {
    && account != DEFAULT_LABEL && !IsDualAccountLabel(account)
    && EndsWith(id, ":" + account) && |id| > |account| + 1
  }

  lemma ExactSuffixIsLike(id: string, tag: string)
    requires IsDualAccountLabel(tag) && EndsWith(id, ":" + tag)
    ensures LikeSuffix(id, tag)
    ensures tag == "taker" ==> !LikeSuffix(id, "maker")
  {
    var tail := id[|id| - 6..];
    assert id[|id| - 6] == tail[0];
    forall k | 0 <= k < 5 ensures id[|id| - 5 + k] == tag[k] { assert id[|id| - 5 + k] == tail[k + 1]; }
    assert "maker"[0] == 'm' && "taker"[0] == 't';
    assert id[|id| - 5 + 0] == tag[0];
  }

  lemma LabelKept(stored: Option<string>)
    ensures NormalizeAccountLabel(StoredLabel(stored)) == Coalesce(stored)
      <==> (stored.Some? ==> Trimmed(stored.value) && stored.value != "")
  {
  }

  lemma AgreeUnfolded(id: string, stored: Option<string>)
    requires Trimmed(id) && id != ""
    ensures var scope := ResolveTrimmed(id, "", NormalizeAccountLabel(StoredLabel(stored)));
      Agree(id, stored) <==> (
        && scope.userOrderId == UserOrderIdFromOrderIdSql(id)
        && scope.accountLabel == AccountLabelFromOrderIdSql(id, Coalesce(stored)))
  {
    assert Trim(id) == id;
    assert Trim("") == "";
  }

  lemma ResolveWithDualSuffix(id: string, account: string, tag: string)
    requires IsDualAccountLabel(tag) && EndsWith(id, ":" + tag)
    requires |id| > 6 && !CutsCustomLabel(id, account)
    ensures ResolveTrimmed(id, "", account) == Scope(id[..|id| - 6], id, tag)
  {
    SuffixSplit(id, tag);
    if IsDualAccountLabel(account) { SuffixSplit(id, account); }
  }

  lemma ResolveBareSuffix(id: string, account: string, tag: string)
    requires IsDualAccountLabel(tag) && EndsWith(id, ":" + tag)
    requires |id| == 6
    ensures ResolveTrimmed(id, "", account).userOrderId != ""
  {
    SuffixSplit(id, tag);
  }

  lemma ResolveCustom(id: string, account: string)
    requires CutsCustomLabel(id, account)
    ensures ResolveTrimmed(id, "", account) == Scope(id[..|id| - |account| - 1], id, account)
  {
  }

  lemma SqlWithDualSuffix(id: string, tag: string, fallback: string)
    requires IsDualAccountLabel(tag) && EndsWith(id, ":" + tag)
    ensures UserOrderIdFromOrderIdSql(id) == id[..|id| - 6]
    ensures AccountLabelFromOrderIdSql(id, fallback) == tag
  {
    ExactSuffixIsLike(id, tag);
  }

  lemma AgreeWithDualSuffix(id: string, stored: Option<string>, tag: string)
    requires Trimmed(id) && IsDualAccountLabel(tag) && EndsWith(id, ":" + tag)
    ensures Agree(id, stored) <==> (|id| > 6 && !CutsCustomLabel(id, NormalizeAccountLabel(StoredLabel(stored))))
  {
    var account := NormalizeAccountLabel(StoredLabel(stored));
    AgreeUnfolded(id, stored);
    SqlWithDualSuffix(id, tag, Coalesce(stored));
    if CutsCustomLabel(id, account) {
      ResolveCustom(id, account);
    } else if |id| > 6 {
      ResolveWithDualSuffix(id, account, tag);
    } else {
      ResolveBareSuffix(id, account, tag);
    }
  }

  lemma ResolveWithoutDualSuffix(id: string, account: string)
    requires !HasDualSuffix(id) && !CutsCustomLabel(id, account)
    ensures ResolveTrimmed(id, "", account) == Scope(id, id, account)
  {
    SuffixSplit(id, "maker");
    SuffixSplit(id, "taker");
  }

  lemma AgreeWithoutDualSuffix(id: string, stored: Option<string>)
    requires Trimmed(id) && id != "" && !HasDualSuffix(id)
    ensures Agree(id, stored) <==> (
      && !LikeDualSuffix(id) && !CutsCustomLabel(id, NormalizeAccountLabel(StoredLabel(stored)))
      && (stored.Some? ==> Trimmed(stored.value) && stored.value != ""))
  {
    var account := NormalizeAccountLabel(StoredLabel(stored));
    AgreeUnfolded(id, stored);
    LabelKept(stored);
    if CutsCustomLabel(id, account) {
      assert ResolveTrimmed(id, "", account) == Scope(id[..|id| - |account| - 1], id, account);
    } else {
      ResolveWithoutDualSuffix(id, account);
    }
  }

  /** For every trimmed id and every stored label: when the backfill and the
      resolver agree. They part on an empty prefix, on suffixes that differ in
      case only, on custom labels the resolver cuts off, and on labels stored
      untrimmed. */
  lemma BackfillAgreesExactly(id: string, stored: Option<string>)
    requires Trimmed(id) && id != ""
    ensures Agree(id, stored) <==> (
      && !CutsCustomLabel(id, NormalizeAccountLabel(StoredLabel(stored)))
      && if HasDualSuffix(id) then |id| > 6
         else !LikeDualSuffix(id) && (stored.Some? ==> Trimmed(stored.value) && stored.value != ""))
  {
    if EndsWith(id, ":maker") { AgreeWithDualSuffix(id, stored, "maker"); }
    else if EndsWith(id, ":taker") { AgreeWithDualSuffix(id, stored, "taker"); }
    else { AgreeWithoutDualSuffix(id, stored); }
  }

  predicate KnownLabel(stored: Option<string>) {
    stored.Some? ==> stored.value == DEFAULT_LABEL || IsDualAccountLabel(stored.value)
  }

  lemma KnownLabelsAreNotCut(id: string, stored: Option<string>)
    requires KnownLabel(stored)
    ensures stored.Some? ==> Trimmed(stored.value) && stored.value != ""
    ensures !CutsCustomLabel(id, NormalizeAccountLabel(StoredLabel(stored)))
  {
    if stored.Some? { KnownLabelsAreKept(stored.value); }
    LabelKept(stored);
  }

  lemma DualSuffixIsLike(id: string)
    requires HasDualSuffix(id)
    ensures LikeDualSuffix(id)
  {
    if EndsWith(id, ":maker") { ExactSuffixIsLike(id, "maker"); } else { ExactSuffixIsLike(id, "taker"); }
  }

  /** The labels the application stores itself. */
  lemma BackfillAgreesOnKnownLabels(id: string, stored: Option<string>)
    requires Trimmed(id) && id != "" && KnownLabel(stored)
    ensures Agree(id, stored) <==> (LikeDualSuffix(id) ==> HasDualSuffix(id) && |id| > 6)
  {
    BackfillAgreesExactly(id, stored);
    KnownLabelsAreNotCut(id, stored);
    if HasDualSuffix(id) { DualSuffixIsLike(id); }
  }

  /** They part on every id that has such a suffix in another case only. */
  lemma BackfillPartsOnCase(id: string, stored: Option<string>)
    requires Trimmed(id) && LikeDualSuffix(id) && !HasDualSuffix(id)
    ensures !Agree(id, stored)
  {
    AgreeWithoutDualSuffix(id, stored);
  }

  lemma CapitalsAreSuchACase()
    ensures var id := "o1:MAKER"; Trimmed(id) && LikeDualSuffix(id) && !HasDualSuffix(id)
  {
    var id := "o1:MAKER";
    assert id[2] == ':' && id[3] == 'M' && id[4] == 'A' && id[5] == 'K' && id[6] == 'E' && id[7] == 'R';
    var tag := "maker";
    assert tag[0] == 'm' && tag[1] == 'a' && tag[2] == 'k' && tag[3] == 'e' && tag[4] == 'r';
    CapitalsAreLike(id, tag);
    var tail := id[|id| - 6..];
    assert tail[1] == 'M' && ":maker"[1] == 'm' && ":taker"[1] == 't';
  }

  lemma CapitalsAreLike(id: string, tag: string)
    requires |id| == 8 && |tag| == 5 && id[2] == ':'
    requires tag[0] == AsciiLower(id[3]) && tag[1] == AsciiLower(id[4]) && tag[2] == AsciiLower(id[5])
    requires tag[3] == AsciiLower(id[6]) && tag[4] == AsciiLower(id[7])
    ensures LikeSuffix(id, tag)
  {
  }

  /** The letters that match, one by one: each in either case. */
  lemma LikeMakerExactly(id: string)
    ensures LikeSuffix(id, "maker") <==>
      |id| >= 6 && var s := id[|id| - 6..];
        s[0] == ':' && s[1] in {'m', 'M'} && s[2] in {'a', 'A'} && s[3] in {'k', 'K'} && s[4] in {'e', 'E'} &&
          s[5] in {'r', 'R'}
  {
    var tag := "maker";
    assert tag[0] == 'm' && tag[1] == 'a' && tag[2] == 'k' && tag[3] == 'e' && tag[4] == 'r';
  }
}
