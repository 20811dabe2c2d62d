/** The card the discover list shows for one community: name, description,
    market chips, price and win rate. */
module CommunityCard {
  import opened Types
  import Dashboard

  /** The joined community_stats columns the card reads. */
  datatype StatsSummary = StatsSummary(totalSignals: int, winRate: int)

  /** A community with its market rows and its stats, which are absent when
      the community has no community_stats row. */
  datatype CommunityListing = CommunityListing(community: Community, markets: seq<Market>, stats: Option<StatsSummary>)

  /** `community_stats?.total_signals ?? 0`. */
  function TotalSignals(c: CommunityListing): (n: int)
    ensures c.stats.None? ==> n == 0
    ensures c.stats.Some? ==> n == c.stats.value.totalSignals
  {
    if c.stats.Some? then c.stats.value.totalSignals else 0
  }

  /** `community_stats?.win_rate ?? 0`. */
  function ShownWinRate(c: CommunityListing): (r: int)
    ensures c.stats.None? ==> r == 0
    ensures c.stats.Some? ==> r == c.stats.value.winRate
  {
    if c.stats.Some? then c.stats.value.winRate else 0
  }

  /** getWinRateConfig's three tiers. */
  datatype Tier = Excellent | Good | Poor

  function TierOf(winRate: int): (t: Tier)
    ensures t == Excellent <==> winRate >= 65
    ensures t == Good <==> 50 <= winRate < 65
    ensures t == Poor <==> winRate < 50
  {
    if winRate >= 65 then Excellent else if winRate >= 50 then Good else Poor
  }

  function Rank(t: Tier): nat {
    match t
    case Poor => 0
    case Good => 1
    case Excellent => 2
  }

  /** A higher win rate never gets a lower tier. */
  lemma TierMonotone(a: int, b: int)
    requires a <= b
    ensures Rank(TierOf(a)) <= Rank(TierOf(b))
  {
  }

  /** The dashboard draws a win rate in green exactly when this card rates it
      Good or Excellent. */
  lemma TierAgreesWithDashboard(winRate: int)
    ensures Dashboard.WinRateTone(winRate) == Dashboard.Good <==> TierOf(winRate) != Poor
  {
  }

  /** The win-rate cell: "N/A" for no signals, otherwise the tier and the
      percentage. A negative total reaches `winRateConfig!` with no config,
      which throws; `Broken` stands for that. */
  datatype WinRateCell = NotApplicable | Rated(tier: Tier, percent: int) | Broken

  function WinRateCellOf(c: CommunityListing): (cell: WinRateCell)
    ensures cell.NotApplicable? <==> TotalSignals(c) == 0
    ensures cell.Rated? <==> TotalSignals(c) > 0
    ensures cell.Rated? ==> cell.percent == ShownWinRate(c) && cell.tier == TierOf(ShownWinRate(c))
  {
    var total := TotalSignals(c);
    if total == 0 then NotApplicable
    else if total > 0 then Rated(TierOf(ShownWinRate(c)), ShownWinRate(c))
    else Broken
  }

  /** A community without a stats row shows "N/A". */
  lemma MissingStatsShowNotApplicable(c: CommunityListing)
    requires c.stats.None?
    ensures WinRateCellOf(c) == NotApplicable
  {
  }

  /** The price text: "Free" for exactly 0, otherwise "₦{price}/mo", in which
      a null price prints as "null". */
  datatype PriceLabel = FreeLabel | PerMonth(price: Option<int>)

  function PriceLabelOf(price: Option<int>): (l: PriceLabel)
    ensures l == FreeLabel <==> price == Some(0)
    ensures l.PerMonth? ==> l.price == price
  {
    if price == Some(0) then FreeLabel else PerMonth(price)
  }

  datatype View = View(
    name: string,
    description: Option<string>,
    marketChips: seq<Market>,
    price: PriceLabel,
    winRate: WinRateCell,
    totalSignals: int)

  /** `community.description && ...`: shown when neither null nor "". */
  function ShownDescription(d: Option<string>): (r: Option<string>)
    ensures r.Some? <==> d.Some? && d.value != ""
    ensures r.Some? ==> r == d
  {
    if d.Some? && d.value != "" then d else None
  }

  function Render(c: CommunityListing): (v: View)
    ensures v.name == c.community.name
    ensures v.description == ShownDescription(c.community.description)
    ensures v.marketChips == c.markets
    ensures v.price == PriceLabelOf(c.community.subscriptionPrice)
    ensures v.winRate == WinRateCellOf(c)
    ensures v.totalSignals == TotalSignals(c)
  {
    View(c.community.name, ShownDescription(c.community.description), c.markets,
         PriceLabelOf(c.community.subscriptionPrice), WinRateCellOf(c), TotalSignals(c))
  }
}
