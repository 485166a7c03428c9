/** server/src/modules/campaign/campaign.service.ts: reading all joined campaigns page by
    page, and joining the running ones that are not among them. */
module Campaigns {
  import opened Decimal
  import opened Outcomes
  import opened Text

  /** A campaign as the recording oracle lists it. */
  datatype Joined = Joined(chainId: Option<nat>, escrowAddress: Option<string>, address: Option<string>)

  /** A campaign as the launcher lists it. */
  datatype Campaign = Campaign(chainId: nat, address: string, exchangeName: string)

  const PAGE_LIMIT: nat := 50

  /** A server that pages through a fixed list, at most `cap` items a page. */
  datatype Server = Server(list: seq<Joined>, cap: nat)

  datatype Page = Page(results: seq<Joined>, hasMore: bool)

  function Min(a: nat, b: nat): nat { if a < b then a else b }

  /** A slice of the list and a truthful flag. */
  function GetPage(server: Server, skip: nat, limit: nat): Page {
    var from := Min(skip, |server.list|);
    var to := Min(from + Min(limit, server.cap), |server.list|);
    Page(server.list[from..to], to < |server.list|)
  }

  /** The pages are as long as asked for, or the list fits on the first. */
  predicate PagesSuffice(server: Server) { server.cap >= PAGE_LIMIT || |server.list| <= server.cap }

  /** The loop ends, and returns the whole list in order exactly when the server's pages
      suffice; a server with shorter pages is read for one page only. */
  method FetchAllJoinedCampaigns(server: Server) returns (all: seq<Joined>)
    ensures all == if server.cap >= 50 || |server.list| <= server.cap then server.list else server.list[..server.cap]
    ensures all == server.list <==> PagesSuffice(server)
  {
    all := [];
    while true
      invariant all <= server.list && (all != [] ==> server.cap >= PAGE_LIMIT && |all| < |server.list|)
      decreases |server.list| - |all|
    {
      var skip := if |all| > 0 then |all| else 0;
      var data := GetPage(server, skip, PAGE_LIMIT);
      all := all + data.results;
      if !data.hasMore || |data.results| < PAGE_LIMIT {
        break;
      }
    }
  }

  // ---- keys ----

  function JoinedAddress(j: Joined): string {
    if j.escrowAddress.Some? then j.escrowAddress.value else if j.address.Some? then j.address.value else ""
  }

  function JoinedKey(j: Joined, lower: string -> string): string {
    (if j.chainId.Some? then Digits(j.chainId.value) else "") + ":" + lower(JoinedAddress(j))
  }

  function CampaignKey(c: Campaign, lower: string -> string): string {
    Digits(c.chainId) + ":" + lower(c.address)
  }

  lemma NoColonInDigits(n: nat)
    ensures ':' !in Digits(n)
  {
  }

  /** Keys are equal exactly for the same chain and the same lower-cased address. */
  lemma KeysIdentify(c: Campaign, j: Joined, lower: string -> string)
    ensures CampaignKey(c, lower) == JoinedKey(j, lower)
      <==> j.chainId == Some(c.chainId) && lower(c.address) == lower(JoinedAddress(j))
  {
    hide Digits, JoinedAddress;
    var chain := if j.chainId.Some? then Digits(j.chainId.value) else "";
    NoColonInDigits(c.chainId);
    if j.chainId.Some? { NoColonInDigits(j.chainId.value); }
    if CampaignKey(c, lower) == JoinedKey(j, lower) {
      PrefixesEqual(Digits(c.chainId), lower(c.address), chain, lower(JoinedAddress(j)));
      if j.chainId.Some? { DigitsInjective(c.chainId, j.chainId.value); }
    }
  }

  lemma PrefixesEqual(a: string, x: string, b: string, y: string)
    requires ':' !in a && ':' !in b && a + ":" + x == b + ":" + y
    ensures a == b && x == y
  {
    hide IndexOf;
    IndexOfAppend(a, ':', x);
    IndexOfAppend(b, ':', y);
    var s := a + ":" + x;
    assert s[..|a|] == a && s[|a| + 1..] == x;
    assert s[..|b|] == b && s[|b| + 1..] == y;
  }

  function KeysOf(all: seq<Joined>, lower: string -> string): set<string> { set j | j in all :: JoinedKey(j, lower) }

  // ---- joining ----

  /** The running campaigns to post, in order. */
  function ToPost(running: seq<Campaign>, joinedKeys: set<string>, lower: string -> string,
                  ready: Campaign -> bool): seq<Campaign> {
    if running == [] then [] else
      ToPost(running[..|running| - 1], joinedKeys, lower, ready)
      + var c := running[|running| - 1];
        if CampaignKey(c, lower) !in joinedKeys && ready(c) then [c] else []
  }

  lemma {:induction false} ToPostMembers(running: seq<Campaign>, joinedKeys: set<string>, lower: string -> string,
                                         ready: Campaign -> bool)
    ensures forall c ::
      c in ToPost(running, joinedKeys, lower, ready) <==>
      (c in running && CampaignKey(c, lower) !in joinedKeys && ready(c))
  {
    if running != [] {
      var n := |running| - 1;
      ToPostMembers(running[..n], joinedKeys, lower, ready);
      assert running == running[..n] + [running[n]];
    }
  }

  /** The joining loop; `joined` is what was fetched, if the fetch succeeded, and `ready`
      says whether a campaign's exchange could be set up, without which nothing is posted. */
  method JoinCampaigns(running: seq<Campaign>, joined: Option<seq<Joined>>, lower: string -> string,
                       ready: Campaign -> bool)
    returns (posted: seq<Campaign>)
    ensures posted == ToPost(running, if joined.Some? then KeysOf(joined.value, lower) else {}, lower, ready)
  {
    var joinedKeys := if joined.Some? then KeysOf(joined.value, lower) else {};
    posted := [];
    for i := 0 to |running|
      invariant posted == ToPost(running[..i], joinedKeys, lower, ready)
    {
      var campaign := running[i];
      assert running[..i + 1][..i] == running[..i];
      if CampaignKey(campaign, lower) in joinedKeys {
        continue;
      }
      if ready(campaign) {
        posted := posted + [campaign];
      }
    }
    assert running[..|running|] == running;
  }

  /** Fetch and join together: when the pages suffice, what is posted is exactly what is
      running, ready, and not listed by the server under its chain and address. */
  method FetchAndJoin(server: Server, running: seq<Campaign>, lower: string -> string, ready: Campaign -> bool)
    returns (posted: seq<Campaign>)
    ensures PagesSuffice(server) ==> forall c :: c in posted <==>
      (c in running && ready(c)
       && !exists j <- server.list :: j.chainId == Some(c.chainId) && lower(JoinedAddress(j)) == lower(c.address))
    ensures !PagesSuffice(server) ==> forall c <- running ::
      ready(c) && (forall j <- server.list[..server.cap] :: JoinedKey(j, lower) != CampaignKey(c, lower)) ==>
        c in posted
  {
    var all := FetchAllJoinedCampaigns(server);
    posted := JoinCampaigns(running, Some(all), lower, ready);
    ToPostMembers(running, KeysOf(all, lower), lower, ready);
    forall c | c in running
      ensures CampaignKey(c, lower) in KeysOf(all, lower)
        <==> exists j <- all :: j.chainId == Some(c.chainId) && lower(JoinedAddress(j)) == lower(c.address)
    {
      ListedMeansKeyed(c, all, lower);
    }
  }

  lemma ListedMeansKeyed(c: Campaign, all: seq<Joined>, lower: string -> string)
    ensures CampaignKey(c, lower) in KeysOf(all, lower)
      <==> exists j <- all :: j.chainId == Some(c.chainId) && lower(JoinedAddress(j)) == lower(c.address)
  {
    hide CampaignKey, JoinedKey, JoinedAddress;
    forall j | j in all { KeysIdentify(c, j, lower); }
  }

  /** Of the two addresses the server may give, the escrow address is the one compared. */
  lemma EscrowAddressWins(c: Campaign, j: Joined, lower: string -> string)
    ensures j.escrowAddress.Some? ==>
      (CampaignKey(c, lower) == JoinedKey(j, lower)
       <==> j.chainId == Some(c.chainId) && lower(c.address) == lower(j.escrowAddress.value))
    ensures j.escrowAddress.None? && j.address.Some? ==>
      (CampaignKey(c, lower) == JoinedKey(j, lower)
       <==> j.chainId == Some(c.chainId) && lower(c.address) == lower(j.address.value))
    ensures j.escrowAddress.None? && j.address.None? ==>
      (CampaignKey(c, lower) == JoinedKey(j, lower)
       <==> j.chainId == Some(c.chainId) && lower(c.address) == lower(""))
  {
    hide CampaignKey, JoinedKey;
    KeysIdentify(c, j, lower);
  }
}
