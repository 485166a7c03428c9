/** The Web3 login of server/src/modules/auth/auth.service.ts: a challenge is issued,
    checked, and consumed by one conditional update. The signature check between the
    two is another party's code; its answer is an input here. */
module Web3Login {
  import opened Outcomes
  import opened Text
  import opened Timestamps

  const WEB3_NONCE_TTL_MS: nat := 300_000

  datatype Challenge = Challenge(
    address: string, chainId: string, issuedAt: string, expiresAt: string, consumedAt: Option<string>)

  datatype LoginError =
    | AddressRequired | ChainIdRequired | NonceRequired | UnknownNonce | AlreadyUsed | Expired | Mismatch

  type NonceTable = map<string, Challenge>

  function Lower(s: string): string {
    seq(|s|, i requires 0 <= i < |s| => if 'A' <= s[i] <= 'Z' then (s[i] as int + 32) as char else s[i])
  }

  function NormalizeWeb3Address(address: string): Result<string, LoginError> {
    var normalized := Trim(address);
    if normalized == "" then Err(AddressRequired)
    else Ok(if "0x" <= normalized then Lower(normalized) else normalized)
  }

  function NormalizeWeb3ChainId(chainId: string): Result<string, LoginError> {
    if Trim(chainId) == "" then Err(ChainIdRequired) else Ok(Trim(chainId))
  }

  function NewChallenge(address: string, chainId: string, now: nat): Challenge {
    Challenge(address, chainId, Iso(now), Iso(now + WEB3_NONCE_TTL_MS), None)
  }

  /** The read check: why a nonce may not be used for this address and chain, if so. */
  function ActiveError(table: NonceTable, nonce: string, address: string, chainId: string,
                       now: nat): Option<LoginError> {
    var key := Trim(nonce);
    if key == "" then Some(NonceRequired)
    else if key !in table then Some(UnknownNonce)
    else if table[key].consumedAt.Some? then Some(AlreadyUsed)
    else if GetTime(table[key].expiresAt) <= now then Some(Expired)
    else if table[key].address != address || table[key].chainId != chainId then Some(Mismatch)
    else None
  }

  /** The WHERE clause of the update: the row is this party's, unused, and its expiry
      text is greater than the text of now. */
  predicate Consumable(table: NonceTable, key: string, address: string, chainId: string, now: nat) {
    && key in table
    && table[key].address == address && table[key].chainId == chainId
    && table[key].consumedAt.None? && Less(Iso(now), table[key].expiresAt)
  }

  class NonceService {
    var nonces: NonceTable

    constructor ()
      ensures nonces == map[]
    {
      nonces := map[];
    }

    /** getWeb3Nonce; `nonce` is the random text. */
    method GetWeb3Nonce(address: string, chainId: string, nonce: string, now: nat) returns (r: Result<Challenge,
                        LoginError>)
      modifies this
      ensures r.Ok? <==> Trim(address) != "" && Trim(chainId) != ""
      ensures r.Ok? ==> Ok(r.value.address) == NormalizeWeb3Address(address) && r.value.chainId == Trim(chainId)
      ensures r.Ok? ==> r.value == NewChallenge(r.value.address, r.value.chainId, now)
      ensures nonces == if r.Ok? then old(nonces)[nonce := r.value] else old(nonces)
    {
      var account := NormalizeWeb3Address(address);
      if account.Err? {
        return Err(account.error);
      }
      var chain := NormalizeWeb3ChainId(chainId);
      if chain.Err? {
        return Err(chain.error);
      }
      var challenge := Challenge(account.value, chain.value, Iso(now), Iso(now + WEB3_NONCE_TTL_MS), None);
      nonces := nonces[nonce := challenge];
      return Ok(challenge);
    }

    method AssertActiveWeb3Nonce(nonce: string, address: string, chainId: string,
                                 now: nat) returns (error: Option<LoginError>)
      ensures error == ActiveError(nonces, nonce, address, chainId, now)
    {
      var key := Trim(nonce);
      if key == "" {
        return Some(NonceRequired);
      }
      if key !in nonces {
        return Some(UnknownNonce);
      }
      var challenge := nonces[key];
      if challenge.consumedAt.Some? {
        return Some(AlreadyUsed);
      }
      if GetTime(challenge.expiresAt) <= now {
        return Some(Expired);
      }
      if challenge.address != address || challenge.chainId != chainId {
        return Some(Mismatch);
      }
      return None;
    }

    method ConsumeWeb3Nonce(nonce: string, address: string, chainId: string,
                            now: nat) returns (error: Option<LoginError>)
      modifies this
      ensures error.None? <==> Trim(nonce) != "" && old(Consumable(nonces, Trim(nonce), address, chainId, now))
      ensures error.None? ==>
        nonces == old(nonces)[Trim(nonce) := old(nonces[Trim(nonce)]).(consumedAt := Some(Iso(now)))]
      ensures error.Some? ==> nonces == old(nonces)
    {
      var key := Trim(nonce);
      if key == "" {
        return Some(NonceRequired);
      }
      if !Consumable(nonces, key, address, chainId, now) {
        return Some(AlreadyUsed);
      }
      nonces := nonces[key := nonces[key].(consumedAt := Some(Iso(now)))];
      return None;
    }
  }

  // ---- any number of logins at once ----

  /** How far a login has come. The clock is read before the update that consumes the
      nonce, and the JWT is signed after it. */
  datatype Stage = Checked | Verified | Timed(at: nat) | Consumed(at: nat)

  datatype Login = Login(nonce: string, address: string, chainId: string, stage: Stage)

  /** `recordedAt` is the time written into the nonce's row. */
  datatype Jwt = Jwt(nonce: string, address: string, chainId: string, recordedAt: nat)

  /** What was issued, kept as history. */
  datatype Issue = Issue(address: string, chainId: string, at: nat)

  /** `cutOff` is history too: nonces whose login ended between update and signature. */
  datatype World = World(
    now: nat, nonces: NonceTable, logins: map<nat, Login>, jwts: seq<Jwt>, issued: map<string, Issue>,
    cutOff: set<string>)

  const START := World(0, map[], map[], [], map[], {})

  /** The clock may be set to anything; steps of different logins interleave freely. */
  datatype Event =
    | SetClock(now: nat)
    | IssueNonce(address: string, chainId: string, nonce: string)
    | Check(login: nat, nonce: string, address: string, chainId: string)
    | VerifySignature(login: nat, valid: bool)
    | ReadClock(login: nat)
    | Consume(login: nat)
    | Sign(login: nat)
    | CutOff(login: nat)

  /** Random nonces are new, and the clock stays in years of four digits. */
  predicate Legal(w: World, e: Event) {
    && (e.SetClock? ==> ClockOk(e.now))
    && (e.IssueNonce? ==> e.nonce !in w.nonces)
  }

  predicate ClockOk(now: nat) { FourDigitYear(now) && FourDigitYear(now + WEB3_NONCE_TTL_MS) }

  function SetStage(w: World, login: nat, stage: Stage): World
    requires login in w.logins
  {
    w.(logins := w.logins[login := w.logins[login].(stage := stage)])
  }

  /** A login takes its steps in order; an event out of order does nothing. */
  function Step(w: World, e: Event): World {
    match e
    case SetClock(now) => w.(now := now)
    case IssueNonce(address, chainId, nonce) =>
      w.(nonces := w.nonces[nonce := NewChallenge(address, chainId, w.now)],
         issued := w.issued[nonce := Issue(address, chainId, w.now)])
    case Check(login, nonce, address, chainId) =>
      if login in w.logins || ActiveError(w.nonces, nonce, address, chainId, w.now).Some? then w
      else w.(logins := w.logins[login := Login(nonce, address, chainId, Checked)])
    case VerifySignature(login, valid) =>
      if login !in w.logins || w.logins[login].stage != Checked then w
      else if valid then SetStage(w, login, Verified) else w.(logins := w.logins - {login})
    case ReadClock(login) =>
      if login !in w.logins || w.logins[login].stage != Verified then w else SetStage(w, login, Timed(w.now))
    case Consume(login) =>
      if login !in w.logins || !w.logins[login].stage.Timed? then w else ConsumeStep(w, login, w.logins[login])
    case Sign(login) =>
      if login !in w.logins || !w.logins[login].stage.Consumed? then w
      else w.(logins := w.logins - {login}, jwts := w.jwts + [JwtOf(w.logins[login])])
    case CutOff(login) =>
      if login !in w.logins then w
      else w.(logins := w.logins - {login},
              cutOff := w.cutOff + if w.logins[login].stage.Consumed? then {Trim(w.logins[login].nonce)} else {})
  }

  function ConsumeStep(w: World, login: nat, l: Login): World
    requires login in w.logins && l == w.logins[login] && l.stage.Timed?
  {
    var key := Trim(l.nonce);
    if !Consumable(w.nonces, key, l.address, l.chainId, l.stage.at) then w.(logins := w.logins - {login})
    else SetStage(w, login, Consumed(l.stage.at))
      .(nonces := w.nonces[key := w.nonces[key].(consumedAt := Some(Iso(l.stage.at)))])
  }

  function JwtOf(l: Login): Jwt
    requires l.stage.Consumed?
  {
    Jwt(Trim(l.nonce), l.address, l.chainId, l.stage.at)
  }

  function RunFrom(w: World, events: seq<Event>): World {
    if events == [] then w else Step(RunFrom(w, events[..|events| - 1]), events[|events| - 1])
  }

  predicate LegalFrom(w: World, events: seq<Event>) {
    events == [] || (
      && LegalFrom(w, events[..|events| - 1])
      && Legal(RunFrom(w, events[..|events| - 1]), events[|events| - 1]))
  }

  // ---- what every interleaving keeps ----

  ghost predicate RowsAsIssued(w: World) {
    && w.nonces.Keys == w.issued.Keys
    && forall n <- w.nonces ::
        && ClockOk(w.issued[n].at)
        && var issue := w.issued[n];
           w.nonces[n] == NewChallenge(issue.address, issue.chainId, issue.at).(consumedAt := w.nonces[n].consumedAt)
  }

  /** A JWT belongs to a consumed row, with the party of its issue, and the recorded time
      lies in the row's life. */
  ghost predicate JwtOk(w: World, j: Jwt) {
    && j.nonce in w.nonces && j.nonce in w.issued
    && w.nonces[j.nonce].consumedAt == Some(Iso(j.recordedAt))
    && j.address == w.issued[j.nonce].address && j.chainId == w.issued[j.nonce].chainId
    && j.recordedAt < w.issued[j.nonce].at + WEB3_NONCE_TTL_MS
  }

  ghost predicate LoginOk(w: World, l: Login) {
    && Trim(l.nonce) in w.nonces
    && w.nonces[Trim(l.nonce)].address == l.address && w.nonces[Trim(l.nonce)].chainId == l.chainId
    && (l.stage.Timed? ==> ClockOk(l.stage.at))
    && (l.stage.Consumed? ==> JwtOk(w, JwtOf(l)))
  }

  /** The JWTs signed and about to be signed. */
  ghost predicate Owns(w: World, n: string) {
    || (exists j <- w.jwts :: j.nonce == n)
    || (exists k <- w.logins :: w.logins[k].stage.Consumed? && Trim(w.logins[k].nonce) == n)
    || n in w.cutOff
  }

  /** No two of the JWTs, the logins about to sign and the logins cut off share a nonce. */
  ghost predicate OwnersDiffer(w: World) {
    && (forall a, b | 0 <= a < b < |w.jwts| :: w.jwts[a].nonce != w.jwts[b].nonce)
    && (forall k1, k2
          | k1 in w.logins && k2 in w.logins && k1 != k2
            && w.logins[k1].stage.Consumed? && w.logins[k2].stage.Consumed? ::
          Trim(w.logins[k1].nonce) != Trim(w.logins[k2].nonce))
    && (forall k <- w.logins, j <- w.jwts :: w.logins[k].stage.Consumed? ==> Trim(w.logins[k].nonce) != j.nonce)
    && (forall j <- w.jwts :: j.nonce !in w.cutOff)
    && (forall k <- w.logins :: w.logins[k].stage.Consumed? ==> Trim(w.logins[k].nonce) !in w.cutOff)
  }

  /** A row is consumed exactly when it has an owner. */
  ghost predicate ConsumedIsOwned(w: World) {
    && (forall n <- w.cutOff :: n in w.nonces)
    && forall n <- w.nonces :: w.nonces[n].consumedAt.Some? <==> Owns(w, n)
  }

  ghost predicate Inv(w: World) {
    && ClockOk(w.now) && RowsAsIssued(w)
    && (forall k <- w.logins :: LoginOk(w, w.logins[k]))
    && (forall j <- w.jwts :: JwtOk(w, j))
    && OwnersDiffer(w) && ConsumedIsOwned(w)
  }

  /** What no step undoes: issued rows stay, and a set consumption time stays as it is. */
  ghost predicate Keeps(before: World, after: World) {
    && before.jwts <= after.jwts
    && forall n <- before.nonces ::
        && n in after.nonces && n in before.issued && n in after.issued && after.issued[n] == before.issued[n]
        && (before.nonces[n].consumedAt.Some? ==> after.nonces[n] == before.nonces[n])
  }

  lemma StartIsOk()
    ensures Inv(START)
  {
    YearZero(0);
    YearZero(WEB3_NONCE_TTL_MS);
  }

  lemma YearZero(ms: nat)
    requires ms < DAY
    ensures FourDigitYear(ms)
  {
    assert YearOf(EPOCH_YEAR, 0) == (EPOCH_YEAR, 0);
  }

  /** Rows that stay as they are keep their JWTs and logins proper. */
  lemma RowStays(w: World, w': World, j: Jwt, l: Login)
    requires w.nonces.Keys == w.issued.Keys
    requires forall n <- w.nonces ::
      n in w'.nonces && n in w'.issued && w'.nonces[n] == w.nonces[n] && w'.issued[n] == w.issued[n]
    ensures JwtOk(w, j) ==> JwtOk(w', j)
    ensures LoginOk(w, l) ==> LoginOk(w', l)
  {
    hide Iso, ClockOk, Trim;
  }

  lemma IssueKeepsInv(w: World, address: string, chainId: string, nonce: string)
    requires Inv(w) && nonce !in w.nonces
    ensures var w' := Step(w, IssueNonce(address, chainId, nonce)); Inv(w') && Keeps(w, w')
  {
    hide Iso, GetTime, ClockOk, Trim, Less, ActiveError, OwnersDiffer, Owns, JwtOk, LoginOk, Keeps;
    var w' := Step(w, IssueNonce(address, chainId, nonce));
    assert Keeps(w, w') by { IssueKeeps(w, address, chainId, nonce); }
    forall j | j in w.jwts ensures JwtOk(w', j) { RowStays(w, w', j, Login("", "", "", Checked)); }
    forall k | k in w.logins ensures LoginOk(w', w.logins[k]) { RowStays(w, w', Jwt("", "", "", 0), w.logins[k]); }
    OwnersOf(w, w');
    forall n | n in w'.nonces ensures w'.nonces[n].consumedAt.Some? <==> Owns(w', n) {
      OwnedIsOwned(w, w', n);
      if n == nonce && Owns(w, n) { OwnedExists(w, n); }
    }
  }

  lemma IssueKeeps(w: World, address: string, chainId: string, nonce: string)
    requires RowsAsIssued(w) && nonce !in w.nonces
    ensures Keeps(w, Step(w, IssueNonce(address, chainId, nonce)))
  {
    hide Iso, GetTime, ClockOk, ActiveError;
  }

  lemma OwnersOf(w: World, w': World)
    requires w'.jwts == w.jwts && w'.logins == w.logins && w'.cutOff == w.cutOff && OwnersDiffer(w)
    ensures OwnersDiffer(w')
  {
    hide Trim;
  }

  lemma OwnedIsOwned(w: World, w': World, n: string)
    requires w'.jwts == w.jwts && w'.logins == w.logins && w'.cutOff == w.cutOff
    ensures Owns(w', n) == Owns(w, n)
  {
    hide Trim;
  }

  lemma OwnedExists(w: World, n: string)
    requires Inv(w) && Owns(w, n)
    ensures n in w.nonces
  {
    hide Trim, Iso, ClockOk, RowsAsIssued, OwnersDiffer, Less;
    if j :| j in w.jwts && j.nonce == n { assert JwtOk(w, j); }
    else if k :| k in w.logins && w.logins[k].stage.Consumed? && Trim(w.logins[k].nonce) == n {
      assert LoginOk(w, w.logins[k]);
    }
  }

  /** Steps that consume and sign nothing. */
  ghost predicate Harmless(w: World, logins: map<nat, Login>) {
    forall k | k in logins || k in w.logins ::
      && (k in logins && logins[k].stage.Consumed? ==> k in w.logins && w.logins[k] == logins[k])
      && (k in w.logins && w.logins[k].stage.Consumed? ==> k in logins && w.logins[k] == logins[k])
  }

  lemma HarmlessKeepsInv(w: World, logins: map<nat, Login>)
    requires Inv(w) && Harmless(w, logins) && forall k <- logins :: LoginOk(w, logins[k])
    ensures Inv(w.(logins := logins)) && Keeps(w, w.(logins := logins))
  {
    hide Iso, ClockOk, Trim, RowsAsIssued, NewChallenge;
    var w' := w.(logins := logins);
    assert RowsAsIssued(w') by { RowsOf(w, logins); }
    forall j | j in w.jwts ensures JwtOk(w', j) { assert JwtOk(w, j); }
    forall k | k in logins ensures LoginOk(w', logins[k]) { assert LoginOk(w, logins[k]); }
    RowsHaveIssues(w);
    HarmlessKeepsOwners(w, logins);
  }

  lemma RowsHaveIssues(w: World)
    requires RowsAsIssued(w)
    ensures forall n <- w.nonces :: n in w.issued
  {
    hide Iso, ClockOk;
  }

  lemma RowsOf(w: World, logins: map<nat, Login>)
    requires RowsAsIssued(w)
    ensures RowsAsIssued(w.(logins := logins))
  {
    hide Iso, ClockOk;
  }

  lemma HarmlessKeepsOwners(w: World, logins: map<nat, Login>)
    requires OwnersDiffer(w) && ConsumedIsOwned(w) && Harmless(w, logins)
    ensures OwnersDiffer(w.(logins := logins)) && ConsumedIsOwned(w.(logins := logins))
  {
    hide Trim, Iso;
    var w' := w.(logins := logins);
    forall n ensures Owns(w', n) <==> Owns(w, n) {
      if k :| k in w.logins && w.logins[k].stage.Consumed? && Trim(w.logins[k].nonce) == n { assert k in logins; }
      if k :| k in logins && logins[k].stage.Consumed? && Trim(logins[k].nonce) == n { assert k in w.logins; }
    }
  }

  lemma CheckedIsOk(w: World, nonce: string, address: string, chainId: string)
    requires ActiveError(w.nonces, nonce, address, chainId, w.now).None?
    ensures LoginOk(w, Login(nonce, address, chainId, Checked))
  {
    hide Trim, GetTime, Iso, ClockOk;
  }

  lemma MovedIsOk(w: World, l: Login, stage: Stage)
    requires LoginOk(w, l) && !stage.Consumed? && (stage.Timed? ==> ClockOk(stage.at))
    ensures LoginOk(w, l.(stage := stage))
  {
    hide Trim, Iso, ClockOk;
  }

  /** The steps that only move one login forward or end it. */
  lemma LoginStepKeepsInv(w: World, e: Event)
    requires Inv(w) && (e.Check? || e.VerifySignature? || e.ReadClock?)
    ensures Inv(Step(w, e)) && Keeps(w, Step(w, e))
  {
    hide Iso, GetTime, Trim, Less, RowsAsIssued, JwtOk, LoginOk, OwnersDiffer, ConsumedIsOwned, ClockOk, Keeps,
      ActiveError;
    var w' := Step(w, e);
    assert w' == w.(logins := w'.logins);
    if e.Check? && ActiveError(w.nonces, e.nonce, e.address, e.chainId, w.now).None? {
      CheckedIsOk(w, e.nonce, e.address, e.chainId);
    }
    if e.login in w.logins {
      MovedIsOk(w, w.logins[e.login], Verified);
      MovedIsOk(w, w.logins[e.login], Timed(w.now));
    }
    HarmlessKeepsInv(w, w'.logins);
  }

  lemma ConsumeKeepsInv(w: World, login: nat)
    requires Inv(w) && login in w.logins && w.logins[login].stage.Timed?
    ensures var w' := ConsumeStep(w, login, w.logins[login]); Inv(w') && Keeps(w, w')
  {
    hide Iso, Trim, Less, RowsAsIssued, OwnersDiffer, ConsumedIsOwned, ClockOk, NewChallenge;
    var (l, w') := (w.logins[login], ConsumeStep(w, login, w.logins[login]));
    var key := Trim(l.nonce);
    RowsHaveIssues(w);
    assert LoginOk(w, l);
    if Consumable(w.nonces, key, l.address, l.chainId, l.stage.at) {
      ConsumedRow(w, login);
      forall j | j in w.jwts ensures JwtOk(w', j) { assert JwtOk(w, j); }
      forall k | k in w'.logins ensures LoginOk(w', w'.logins[k]) { assert LoginOk(w, w.logins[k]); }
      ConsumeKeepsOwners(w, login);
    } else {
      HarmlessKeepsInv(w, w.logins - {login});
    }
  }

  /** The row of the new owner, which will be a proper JWT. */
  lemma ConsumedRow(w: World, login: nat)
    requires Inv(w) && login in w.logins && w.logins[login].stage.Timed?
    requires var l := w.logins[login]; Consumable(w.nonces, Trim(l.nonce), l.address, l.chainId, l.stage.at)
    ensures var w' := ConsumeStep(w, login, w.logins[login]);
      RowsAsIssued(w') && JwtOk(w', JwtOf(w'.logins[login]))
  {
    hide Iso, Trim, Less, OwnersDiffer, ConsumedIsOwned, FourDigitYear, GetTime;
    var l := w.logins[login];
    var key := Trim(l.nonce);
    assert LoginOk(w, l);
    IsoOrderIsTimeOrder(l.stage.at, w.issued[key].at + WEB3_NONCE_TTL_MS);
  }

  lemma ConsumeKeepsOwners(w: World, login: nat)
    requires OwnersDiffer(w) && ConsumedIsOwned(w) && login in w.logins && w.logins[login].stage.Timed?
    requires var l := w.logins[login]; Consumable(w.nonces, Trim(l.nonce), l.address, l.chainId, l.stage.at)
    ensures var w' := ConsumeStep(w, login, w.logins[login]); OwnersDiffer(w') && ConsumedIsOwned(w')
  {
    hide Iso, Trim, Less;
    var w' := ConsumeStep(w, login, w.logins[login]);
    var key := Trim(w.logins[login].nonce);
    assert !Owns(w, key);
    forall n ensures Owns(w', n) <==> Owns(w, n) || n == key {
      if k :| k in w.logins && w.logins[k].stage.Consumed? && Trim(w.logins[k].nonce) == n {
        assert w'.logins[k] == w.logins[k];
      }
      assert w'.logins[login].stage.Consumed?;
    }
  }

  /** Signing, or being cut off, hands a row from its login to the JWT or the history. */
  lemma EndKeepsInv(w: World, e: Event)
    requires Inv(w) && (e.Sign? || e.CutOff?) && e.login in w.logins && w.logins[e.login].stage.Consumed?
    ensures Inv(Step(w, e)) && Keeps(w, Step(w, e))
  {
    hide Iso, Trim, Less, RowsAsIssued, OwnersDiffer, ConsumedIsOwned, ClockOk, NewChallenge, ActiveError;
    var w' := Step(w, e);
    var l := w.logins[e.login];
    assert LoginOk(w, l);
    RowsHaveIssues(w);
    assert RowsAsIssued(w') by { SameRows(w, w'); }
    forall j | j in w'.jwts ensures JwtOk(w', j) { assert JwtOk(w, j); }
    forall k | k in w'.logins ensures LoginOk(w', w'.logins[k]) { assert LoginOk(w, w.logins[k]); }
    EndKeepsOwners(w, e);
  }

  lemma SameRows(w: World, w': World)
    requires RowsAsIssued(w) && w'.nonces == w.nonces && w'.issued == w.issued
    ensures RowsAsIssued(w')
  {
    hide Iso, ClockOk;
  }

  lemma EndKeepsOwners(w: World, e: Event)
    requires OwnersDiffer(w) && ConsumedIsOwned(w) && (e.Sign? || e.CutOff?)
    requires e.login in w.logins && w.logins[e.login].stage.Consumed? && Trim(w.logins[e.login].nonce) in w.nonces
    ensures OwnersDiffer(Step(w, e)) && ConsumedIsOwned(Step(w, e))
  {
    hide Iso, Trim, Less, ActiveError;
    var w' := Step(w, e);
    if e.Sign? {
      SignKeepsOwned(w, w', e.login);
      assert w'.jwts == w.jwts + [JwtOf(w.logins[e.login])];
    } else {
      CutOffKeepsOwned(w, w', e.login);
    }
    forall n | n in w'.nonces ensures w'.nonces[n].consumedAt.Some? <==> Owns(w', n) {
      assert Owns(w', n) == Owns(w, n);
    }
  }

  lemma SignKeepsOwned(w: World, w': World, login: nat)
    requires login in w.logins && w.logins[login].stage.Consumed?
    requires w' == w.(logins := w.logins - {login}, jwts := w.jwts + [JwtOf(w.logins[login])])
    ensures forall n :: Owns(w', n) <==> Owns(w, n)
  {
    hide Trim;
    forall n ensures Owns(w', n) <==> Owns(w, n) {
      assert w'.jwts[|w.jwts|].nonce == Trim(w.logins[login].nonce);
      if j :| j in w.jwts && j.nonce == n { assert j in w'.jwts; }
      if k :| k in w.logins && w.logins[k].stage.Consumed? && Trim(w.logins[k].nonce) == n {
        if k != login { assert k in w'.logins; }
      }
    }
  }

  lemma CutOffKeepsOwned(w: World, w': World, login: nat)
    requires login in w.logins && w.logins[login].stage.Consumed?
    requires w' == w.(logins := w.logins - {login}, cutOff := w.cutOff + {Trim(w.logins[login].nonce)})
    ensures forall n :: Owns(w', n) <==> Owns(w, n)
  {
    hide Trim;
    forall n ensures Owns(w', n) <==> Owns(w, n) {
      if k :| k in w.logins && w.logins[k].stage.Consumed? && Trim(w.logins[k].nonce) == n {
        if k != login { assert k in w'.logins; }
      }
    }
  }

  lemma StepKeepsInv(w: World, e: Event)
    requires Inv(w) && Legal(w, e)
    ensures Inv(Step(w, e)) && Keeps(w, Step(w, e))
  {
    hide Iso, GetTime, ClockOk, Trim, Less, OwnersDiffer, ConsumedIsOwned, JwtOk, LoginOk, RowsAsIssued;
    RowsHaveIssues(w);
    match e
    case SetClock(now) => SetClockKeepsInv(w, now);
    case IssueNonce(address, chainId, nonce) => IssueKeepsInv(w, address, chainId, nonce);
    case Check(_, _, _, _) => LoginStepKeepsInv(w, e);
    case VerifySignature(_, _) => LoginStepKeepsInv(w, e);
    case ReadClock(_) => LoginStepKeepsInv(w, e);
    case Consume(login) => if login in w.logins && w.logins[login].stage.Timed? { ConsumeKeepsInv(w, login); }
    case Sign(login) => if login in w.logins && w.logins[login].stage.Consumed? { EndKeepsInv(w, e); }
    case CutOff(login) =>
      if login in w.logins {
        if w.logins[login].stage.Consumed? {
          EndKeepsInv(w, e);
        } else {
          HarmlessKeepsInv(w, w.logins - {login});
          assert w.cutOff + {} == w.cutOff;
        }
      }
  }

  lemma SetClockKeepsInv(w: World, now: nat)
    requires Inv(w) && ClockOk(now)
    ensures Inv(w.(now := now)) && Keeps(w, w.(now := now))
  {
    hide Iso, ClockOk, Trim, Less, NewChallenge;
    var w' := w.(now := now);
    forall j | j in w.jwts ensures JwtOk(w', j) { assert JwtOk(w, j); }
    forall k | k in w.logins ensures LoginOk(w', w.logins[k]) { assert LoginOk(w, w.logins[k]); }
    forall n ensures Owns(w', n) == Owns(w, n) { OwnedIsOwned(w, w', n); }
  }

  lemma {:induction false} RunKeepsInv(w: World, events: seq<Event>)
    requires Inv(w) && LegalFrom(w, events)
    ensures Inv(RunFrom(w, events)) && Keeps(w, RunFrom(w, events))
  {
    hide Inv, Step, Legal;
    if events == [] {
      assert Keeps(w, w) by { KeepsItself(w); }
    } else {
      RunKeepsInv(w, events[..|events| - 1]);
      StepKeepsInv(RunFrom(w, events[..|events| - 1]), events[|events| - 1]);
    }
  }

  lemma KeepsItself(w: World)
    requires Inv(w)
    ensures Keeps(w, w)
  {
    hide Iso, ClockOk, Trim, OwnersDiffer, ConsumedIsOwned, LoginOk, JwtOk;
    RowsHaveIssues(w);
  }

  /** For any interleaving of any number of logins under any clock: a nonce yields at
      most one JWT; the JWT carries the address and chain bound at issue, and the time
      recorded in its row lies strictly before the expiry; and a row is consumed exactly
      when it yielded its JWT, or its one login is about to sign it or was cut off. */
  lemma NonceYieldsOneJwt(events: seq<Event>)
    requires LegalFrom(START, events)
    ensures var w := RunFrom(START, events);
      && (forall a, b | 0 <= a < b < |w.jwts| :: w.jwts[a].nonce != w.jwts[b].nonce)
      && (forall j <- w.jwts ::
            && j.nonce in w.nonces && j.nonce in w.issued
            && w.nonces[j.nonce].consumedAt == Some(Iso(j.recordedAt))
            && j.address == w.issued[j.nonce].address && j.chainId == w.issued[j.nonce].chainId
            && j.recordedAt < w.issued[j.nonce].at + 300_000)
      && OwnersDiffer(w)
      && (forall n <- w.nonces :: w.nonces[n].consumedAt.Some? <==>
            (|| (exists j <- w.jwts :: j.nonce == n)
             || (exists k <- w.logins :: w.logins[k].stage.Consumed? && Trim(w.logins[k].nonce) == n)
             || n in w.cutOff))
  {
    hide Step, LegalFrom, RunFrom, LoginOk, RowsAsIssued, Iso, ClockOk, Trim;
    StartIsOk();
    RunKeepsInv(START, events);
    var w := RunFrom(START, events);
    assert forall j <- w.jwts :: JwtOk(w, j);
    assert forall n <- w.nonces :: w.nonces[n].consumedAt.Some? <==> Owns(w, n);
  }

  /** Once set, a consumption time never changes, and no JWT is ever taken back. */
  lemma ConsumptionIsFinal(events: seq<Event>, later: seq<Event>)
    requires LegalFrom(START, events) && LegalFrom(RunFrom(START, events), later)
    ensures var (before, after) := (RunFrom(START, events), RunFrom(RunFrom(START, events), later));
      && before.jwts <= after.jwts
      && forall n <- before.nonces ::
          && n in after.nonces && n in before.issued && n in after.issued && after.issued[n] == before.issued[n]
          && (before.nonces[n].consumedAt.Some? ==> after.nonces[n] == before.nonces[n])
  {
    hide Step, LegalFrom, RunFrom, Inv;
    StartIsOk();
    RunKeepsInv(START, events);
    RunKeepsInv(RunFrom(START, events), later);
  }

  lemma TimedLoginInState(w: World, login: nat)
    requires Inv(w) && login in w.logins && w.logins[login].stage.Timed?
    ensures var (l, key) := (w.logins[login], Trim(w.logins[login].nonce));
      var w' := Step(w, Consume(login));
      && key in w.nonces && key in w.issued
      && (login in w'.logins <==> w.nonces[key].consumedAt.None? && l.stage.at < w.issued[key].at + WEB3_NONCE_TTL_MS)
      && (login in w'.logins ==> Step(w', Sign(login)).jwts == w.jwts + [Jwt(key, l.address, l.chainId, l.stage.at)])
  {
    hide Iso, GetTime, Trim, Less, OwnersDiffer, ConsumedIsOwned, JwtOk, FourDigitYear;
    var l := w.logins[login];
    assert LoginOk(w, l);
    IsoOrderIsTimeOrder(l.stage.at, w.issued[Trim(l.nonce)].at + WEB3_NONCE_TTL_MS);
    assert Step(w, Consume(login)) == ConsumeStep(w, login, l);
  }

  /** A login with a valid signature gets its JWT exactly when its nonce is still unused
      at the update and unexpired by the clock it read: the first of several wins. */
  lemma VerifiedLoginSucceedsUnlessBeaten(events: seq<Event>, login: nat)
    requires LegalFrom(START, events)
    requires login in RunFrom(START, events).logins && RunFrom(START, events).logins[login].stage.Timed?
    ensures var w := RunFrom(START, events);
      var (l, key) := (w.logins[login], Trim(w.logins[login].nonce));
      var w' := Step(w, Consume(login));
      && key in w.nonces && key in w.issued
      && (login in w'.logins <==> w.nonces[key].consumedAt.None? && l.stage.at < w.issued[key].at + WEB3_NONCE_TTL_MS)
      && (login in w'.logins ==> Step(w', Sign(login)).jwts == w.jwts + [Jwt(key, l.address, l.chainId, l.stage.at)])
  {
    hide Step, LegalFrom, RunFrom, Inv, Trim;
    StartIsOk();
    RunKeepsInv(START, events);
    TimedLoginInState(RunFrom(START, events), login);
  }

  lemma CheckMatchesInState(w: World, nonce: string, address: string, chainId: string)
    requires Inv(w)
    ensures ActiveError(w.nonces, nonce, address, chainId, w.now).None?
      <==> Trim(nonce) != "" && Consumable(w.nonces, Trim(nonce), address, chainId, w.now)
  {
    hide Iso, GetTime, Trim, Less, OwnersDiffer, ConsumedIsOwned, JwtOk, LoginOk, FourDigitYear;
    var key := Trim(nonce);
    if key in w.nonces {
      IsoOrderIsTimeOrder(w.now, w.issued[key].at + WEB3_NONCE_TTL_MS);
      GetTimeOfIso(w.issued[key].at + WEB3_NONCE_TTL_MS);
    }
  }

  /** The read check refuses exactly the rows that are not this party's, used or
      expired; on a reachable table it asks for the same as the update does. */
  lemma ReadCheckMatchesUpdate(events: seq<Event>, nonce: string, address: string, chainId: string)
    requires LegalFrom(START, events)
    ensures var w := RunFrom(START, events);
      ActiveError(w.nonces, nonce, address, chainId, w.now).None?
      <==> Trim(nonce) != "" && Consumable(w.nonces, Trim(nonce), address, chainId, w.now)
  {
    hide Step, LegalFrom, RunFrom, Inv, ActiveError, Consumable;
    StartIsOk();
    RunKeepsInv(START, events);
    CheckMatchesInState(RunFrom(START, events), nonce, address, chainId);
  }

  /** What a login without interruption does. */
  function LoginSteps(login: nat, nonce: string, address: string, chainId: string): seq<Event> {
    [IssueNonce(address, chainId, nonce), Check(login, nonce, address, chainId), VerifySignature(login, true),
     ReadClock(login), Consume(login), Sign(login)]
  }

  lemma FreshLoginInState(w: World, login: nat, nonce: string, address: string, chainId: string)
    requires Inv(w) && nonce !in w.nonces && Trimmed(nonce) && nonce != "" && login !in w.logins
    ensures var checked := Step(Step(w, IssueNonce(address, chainId, nonce)), Check(login, nonce, address, chainId));
      var timed := Step(Step(checked, VerifySignature(login, true)), ReadClock(login));
      Step(Step(timed, Consume(login)), Sign(login)).jwts == w.jwts + [Jwt(nonce, address, chainId, w.now)]
  {
    hide Iso, GetTime, FourDigitYear, Trim, Less, OwnersDiffer, ConsumedIsOwned, JwtOk, LoginOk, RowsAsIssued;
    var expiry := w.now + WEB3_NONCE_TTL_MS;
    assert Trim(nonce) == nonce;
    GetTimeOfIso(expiry);
    IsoOrderIsTimeOrder(w.now, expiry);
    var issued := Step(w, IssueNonce(address, chainId, nonce));
    assert ActiveError(issued.nonces, nonce, address, chainId, w.now).None?;
    var checked := Step(issued, Check(login, nonce, address, chainId));
    assert checked == issued.(logins := issued.logins[login := Login(nonce, address, chainId, Checked)]);
    var timed := Step(Step(checked, VerifySignature(login, true)), ReadClock(login));
    assert timed.logins[login] == Login(nonce, address, chainId, Timed(w.now)) && timed.nonces == issued.nonces;
    assert Step(timed, Consume(login)) == ConsumeStep(timed, login, timed.logins[login]);
  }

  /** From every reachable state, a new nonce used at once with a valid signature
      yields its JWT: the checks never lock an honest party out. */
  lemma FreshLoginSucceeds(events: seq<Event>, login: nat, nonce: string, address: string, chainId: string)
    requires LegalFrom(START, events)
    requires var w := RunFrom(START, events); nonce !in w.nonces && login !in w.logins
    requires Trimmed(nonce) && nonce != ""
    ensures var w := RunFrom(START, events);
      RunFrom(w, LoginSteps(login, nonce, address, chainId)).jwts == w.jwts + [Jwt(nonce, address, chainId, w.now)]
  {
    hide Step, LegalFrom, Inv, Trimmed;
    StartIsOk();
    RunKeepsInv(START, events);
    FreshLoginInState(RunFrom(START, events), login, nonce, address, chainId);
    RunOfSix(RunFrom(START, events), LoginSteps(login, nonce, address, chainId));
  }

  lemma RunOfSix(w: World, es: seq<Event>)
    requires |es| == 6
    ensures RunFrom(w, es) == Step(Step(Step(Step(Step(Step(w, es[0]), es[1]), es[2]), es[3]), es[4]), es[5])
  {
    hide Step;
    assert es[..5][..4] == es[..4] && es[..4][..3] == es[..3] && es[..3][..2] == es[..2] &&
      es[..2][..1] == es[..1] && es[..1][..0] == [];
    assert RunFrom(w, es[..0]) == w;
    assert RunFrom(w, es[..1]) == Step(w, es[0]);
    assert RunFrom(w, es[..2]) == Step(RunFrom(w, es[..1]), es[1]);
    assert RunFrom(w, es[..3]) == Step(RunFrom(w, es[..2]), es[2]);
    assert RunFrom(w, es[..4]) == Step(RunFrom(w, es[..3]), es[3]);
    assert RunFrom(w, es[..5]) == Step(RunFrom(w, es[..4]), es[4]);
  }

  // ---- what the checks say ----

  /** Addresses: blank ones are refused; one that starts with a small `0x` loses its
      capitals, letter by letter; any other is kept as it is, trimmed. */
  lemma AddressForms(address: string)
    ensures var (a, r) := (Trim(address), NormalizeWeb3Address(address));
      && (a == "" ==> r == Err(AddressRequired))
      && (a != "" && !(|a| >= 2 && a[0] as int == 48 && a[1] as int == 120) ==> r == Ok(a))
      && (|a| >= 2 && a[0] as int == 48 && a[1] as int == 120 ==>
           && r.Ok? && |r.value| == |a|
           && forall k | 0 <= k < |a| ::
                r.value[k] as int == if 65 <= a[k] as int <= 90 then a[k] as int + 32 else a[k] as int)
  {
    hide Trim;
    var a := Trim(address);
    assert |"0x"| == 2 && "0x"[0] == '0' && "0x"[1] == 'x';
    assert "0x" <= a <==> |a| >= 2 && a[0] == '0' && a[1] == 'x';
  }

  lemma ChainForms(chainId: string)
    ensures NormalizeWeb3ChainId(chainId) == if Trim(chainId) == "" then Err(ChainIdRequired) else Ok(Trim(chainId))
  {
  }

  /** Why the read check refuses, on every reachable table: the first of these that holds. */
  lemma WhyRefused(events: seq<Event>, nonce: string, address: string, chainId: string)
    requires LegalFrom(START, events)
    ensures var w := RunFrom(START, events);
      var (key, error) := (Trim(nonce), ActiveError(w.nonces, nonce, address, chainId, w.now));
      if key == "" then error == Some(NonceRequired)
      else if key !in w.nonces || key !in w.issued then error == Some(UnknownNonce) && key !in w.nonces
      else if w.nonces[key].consumedAt.Some? then error == Some(AlreadyUsed)
      else if w.now >= w.issued[key].at + 300_000 then error == Some(Expired)
      else if address != w.issued[key].address || chainId != w.issued[key].chainId then error == Some(Mismatch)
      else error == None
  {
    hide Step, LegalFrom, RunFrom, Iso, GetTime, FourDigitYear, Trim, Less, OwnersDiffer, ConsumedIsOwned, JwtOk,
      LoginOk;
    StartIsOk();
    RunKeepsInv(START, events);
    var w := RunFrom(START, events);
    if Trim(nonce) in w.issued { GetTimeOfIso(w.issued[Trim(nonce)].at + WEB3_NONCE_TTL_MS); }
  }

  /** A nonce that is not used can be used by its party for exactly five minutes. */
  lemma NonceLivesFiveMinutes(events: seq<Event>, key: string, t: nat)
    requires LegalFrom(START, events) && key in RunFrom(START, events).issued && ClockOk(t)
    ensures var w := RunFrom(START, events);
      var issue := w.issued[key];
      && key in w.nonces
      && (Consumable(w.nonces, key, issue.address, issue.chainId, t)
          <==> w.nonces[key].consumedAt == None && t < issue.at + 300_000)
  {
    hide Step, LegalFrom, RunFrom, Iso, GetTime, FourDigitYear, Trim, Less, OwnersDiffer, ConsumedIsOwned, JwtOk,
      LoginOk;
    StartIsOk();
    RunKeepsInv(START, events);
    IsoOrderIsTimeOrder(t, RunFrom(START, events).issued[key].at + WEB3_NONCE_TTL_MS);
  }
}
