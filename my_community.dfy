/** The owner's community overview: name with approval badge, market chips,
    description, price and the five newest signals. */
module MyCommunity {
  import opened Types
  import SignalLists

  /** The two status badges; each is drawn when its flag is set. */
  datatype ApprovalBadges = ApprovalBadges(pendingApproval: bool, active: bool)

  /** `status === "pending" && ...` and `status === "active" && ...`. */
  function ApprovalBadgesFor(status: CommunityStatus): (b: ApprovalBadges)
    ensures b.pendingApproval <==> status == AwaitingApproval
    ensures b.active <==> status == Approved
    ensures !(b.pendingApproval && b.active)
    ensures status.OtherStatus? ==> !b.pendingApproval && !b.active
  {
    ApprovalBadges(status == AwaitingApproval, status == Approved)
  }

  /** `subscription_price || 0`. */
  function PriceText(price: Option<int>): (shown: int)
    ensures shown == 0 <==> price.None? || price.value == 0
    ensures shown != 0 ==> price == Some(shown)
  {
    if price.Some? && price.value != 0 then price.value else 0
  }

  /** `description || "No description yet"`: null and "" both fall back. */
  function DescriptionText(description: Option<string>): (shown: string)
    ensures description.Some? && description.value != "" ==> shown == description.value
    ensures description.None? || description.value == "" ==> shown == "No description yet"
  {
    if description.Some? && description.value != "" then description.value else "No description yet"
  }

  /** `marketType.length !== 0 && ...`. */
  predicate ShowMarketChips(markets: seq<MarketRow>) {
    |markets| != 0
  }

  /** What the overview holds between renders. */
  datatype Overview = Overview(community: Option<Community>, recentSignals: seq<Signal>, markets: seq<MarketRow>, loading: bool)

  /** fetchData given the store's answers: without a user nothing happens;
      without a community only the spinner stops. */
  function Fetch(s: Overview, signedIn: bool, communityResp: Option<Community>,
                 signalsResp: Option<seq<Signal>>, marketsResp: Option<seq<MarketRow>>): (r: Overview)
    ensures !signedIn ==> r == s
    ensures signedIn ==> !r.loading
    ensures signedIn && communityResp.None? ==> r == s.(loading := false)
    ensures signedIn && communityResp.Some? ==>
              r.community == communityResp
              && r.recentSignals == (if signalsResp.Some? then signalsResp.value else [])
              && r.markets == (if marketsResp.Some? then marketsResp.value else [])
  {
    if !signedIn then s
    else if communityResp.None? then s.(loading := false)
    else Overview(communityResp, if signalsResp.Some? then signalsResp.value else [],
                  if marketsResp.Some? then marketsResp.value else [], false)
  }

  /** handleSignalUpdate: only the recent list changes. */
  function HandleSignalUpdate(s: Overview, id: string, status: Outcome): (r: Overview)
    ensures r.community == s.community && r.markets == s.markets && r.loading == s.loading
    ensures |r.recentSignals| == |s.recentSignals|
    ensures forall i :: 0 <= i < |r.recentSignals| ==>
              r.recentSignals[i] == if s.recentSignals[i].id == id then s.recentSignals[i].(status := status) else s.recentSignals[i]
  {
    s.(recentSignals := SignalLists.WithStatus(s.recentSignals, id, status))
  }
}
