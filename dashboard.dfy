/** The community owner's dashboard: the community, follower and active
    subscriber counts, the stats record, and the five newest signals, which
    the owner can resolve in place. */
module Dashboard {
  import opened Types
  import opened Seqs
  import Arith
  import SignalLists
  import MyCommunity

  /** `statsData ?? { community_id, total_signals: 0, wins: 0, losses: 0, win_rate: 0 }`. */
  function StatsOrDefault(stored: Option<CommunityStats>, communityId: string): (s: CommunityStats)
    ensures stored.Some? ==> s == stored.value
    ensures stored.None? ==> s.communityId == communityId && s.totalSignals == 0 && s.wins == 0
                             && s.losses == 0 && s.winRate == 0
  {
    if stored.Some? then stored.value else CommunityStats(communityId, 0, 0, 0, 0)
  }

  /** The win-rate colour: green from 50 up, red below. */
  datatype RateTone = Good | Bad

  function WinRateTone(winRate: int): (t: RateTone)
    ensures t == Good <==> winRate >= 50
  {
    if winRate >= 50 then Good else Bad
  }

  /** A JavaScript number as the win-rate expression can produce it. */
  datatype JsNumber = Finite(value: int) | PosInfinity | NegInfinity | NaN

  /** `Math.round((wins / total) * 100)` with the quotient taken exactly
      rather than as a double; division by zero gives NaN for 0/0 and a
      signed infinity otherwise. */
  function RoundedRateAsWritten(wins: int, total: int): (r: JsNumber)
    ensures total > 0 ==> r == Finite(Arith.RoundDiv(100 * wins, total))
    ensures total == 0 ==> !r.Finite?
  {
    if total > 0 then Finite(Arith.RoundDiv(100 * wins, total))
    else if total < 0 then Finite(Arith.RoundDiv(-100 * wins, -total))
    else if wins == 0 then NaN
    else if wins > 0 then PosInfinity
    else NegInfinity
  }

  /** The stats record as handleSignalUpdate writes it, whose win rate may
      not be a finite number. */
  datatype ShownStats = ShownStats(communityId: string, totalSignals: int, wins: int, losses: int, winRate: JsNumber)

  /** handleSignalUpdate's stats update, as written. */
  function ApplyResolutionAsWritten(prev: Option<CommunityStats>, status: Outcome): (r: Option<ShownStats>)
    ensures r.None? <==> prev.None?
  {
    if prev.None? then None
    else
      var p := prev.value;
      var wins := if status == Win then p.wins + 1 else p.wins;
      var losses := if status == Loss then p.losses + 1 else p.losses;
      Some(ShownStats(p.communityId, p.totalSignals, wins, losses, RoundedRateAsWritten(wins, p.totalSignals)))
  }

  /** With the default zero record (no community_stats row yet), resolving a
      signal as a win shows an infinite win rate and as a loss shows NaN. */
  lemma DefaultStatsBreakWinRate(communityId: string)
    ensures ApplyResolutionAsWritten(Some(StatsOrDefault(None, communityId)), Win).value.winRate == PosInfinity
    ensures ApplyResolutionAsWritten(Some(StatsOrDefault(None, communityId)), Loss).value.winRate == NaN
  {
  }

  /** The win rate the dashboard evidently means: wins as a rounded
      percentage of all signals, and 0 while there are none. */
  function WinRate(wins: int, total: int): (r: int)
    ensures total > 0 && 0 <= wins <= total ==> 0 <= r <= 100
    ensures total <= 0 ==> r == 0
    ensures total > 0 && wins == total ==> r == 100
    ensures total > 0 ==> r * (2 * total) <= 200 * wins + total < r * (2 * total) + 2 * total
  {
    if total <= 0 then 0 else Arith.Percent(wins, total)
  }

  /** handleSignalUpdate's stats update, with the corrected win rate. */
  function ApplyResolution(prev: Option<CommunityStats>, status: Outcome): (r: Option<CommunityStats>)
    ensures r.None? <==> prev.None?
    ensures r.Some? ==> r.value.communityId == prev.value.communityId
    ensures r.Some? ==> r.value.totalSignals == prev.value.totalSignals
    ensures r.Some? ==> r.value.wins == prev.value.wins + (if status == Win then 1 else 0)
    ensures r.Some? ==> r.value.losses == prev.value.losses + (if status == Loss then 1 else 0)
    ensures r.Some? ==> r.value.winRate == WinRate(r.value.wins, r.value.totalSignals)
  {
    if prev.None? then None
    else
      var p := prev.value;
      var wins := if status == Win then p.wins + 1 else p.wins;
      var losses := if status == Loss then p.losses + 1 else p.losses;
      Some(CommunityStats(p.communityId, p.totalSignals, wins, losses, WinRate(wins, p.totalSignals)))
  }

  /** Where the community has signals the written and the corrected update agree. */
  lemma AsWrittenAgreesWhenTotalPositive(prev: CommunityStats, status: Outcome)
    requires prev.totalSignals > 0
    ensures var w := ApplyResolutionAsWritten(Some(prev), status).value;
            var c := ApplyResolution(Some(prev), status).value;
            w.wins == c.wins && w.losses == c.losses && w.totalSignals == c.totalSignals
            && w.winRate == Finite(c.winRate)
  {
  }

  function IsWin(): SignalStatus -> bool { (s: SignalStatus) => s == Win }
  function IsLoss(): SignalStatus -> bool { (s: SignalStatus) => s == Loss }

  /** The stats record recomputed from the statuses of all of a community's signals. */
  function Recompute(communityId: string, statuses: seq<SignalStatus>): CommunityStats {
    var wins := |Keep(statuses, IsWin())|;
    CommunityStats(communityId, |statuses|, wins, |Keep(statuses, IsLoss())|, WinRate(wins, |statuses|))
  }

  /** The recomputed win and loss counts never exceed the number of signals. */
  lemma RecomputeBounds(communityId: string, statuses: seq<SignalStatus>)
    ensures Recompute(communityId, statuses).wins + Recompute(communityId, statuses).losses <= |statuses|
    ensures 0 <= Recompute(communityId, statuses).winRate <= 100
  {
    KeepPartition(statuses, IsWin(), (s: SignalStatus) => s != Win);
    KeepMonotone(statuses, IsLoss(), (s: SignalStatus) => s != Win);
  }

  /** Resolving a pending signal and updating the record incrementally gives
      the record recomputed from the new statuses: the dashboard stays in
      step with the store without a refetch. */
  lemma IncrementalMatchesRecompute(communityId: string, statuses: seq<SignalStatus>, i: nat, result: Outcome)
    requires i < |statuses| && statuses[i] == Pending
    ensures ApplyResolution(Some(Recompute(communityId, statuses)), result)
            == Some(Recompute(communityId, statuses[i := result]))
  {
    KeepCountUpdate(statuses, i, result, IsWin());
    KeepCountUpdate(statuses, i, result, IsLoss());
  }

  /** A second resolution of the same signal would count it twice: the
      record no longer matches any recomputation once a resolved signal is
      resolved again. */
  lemma ResolvingTwiceOvercounts(communityId: string, statuses: seq<SignalStatus>, i: nat)
    requires i < |statuses| && statuses[i] == Win
    ensures ApplyResolution(Some(Recompute(communityId, statuses)), Win).value.wins
            == Recompute(communityId, statuses).wins + 1
  {
  }

  class Screen {
    var community: Option<Community>
    var stats: Option<CommunityStats>
    var followers: int
    var subscribers: int
    var recentSignals: seq<Signal>
    var loading: bool

    constructor ()
      ensures community.None? && stats.None? && followers == 0 && subscribers == 0
      ensures recentSignals == [] && loading
    {
      community := None;
      stats := None;
      followers := 0;
      subscribers := 0;
      recentSignals := [];
      loading := true;
    }

    /** fetchDashboardData with the store's answers as parameters; a `None`
        community stands for an error or no row. */
    method FetchDashboardData(signedIn: bool, communityResp: Option<Community>, followerCount: Option<int>,
                              subscriberCount: Option<int>, statsResp: Option<CommunityStats>,
                              signalsResp: Option<seq<Signal>>)
      modifies this
      ensures !signedIn ==> community == old(community) && stats == old(stats) && loading == old(loading)
                            && followers == old(followers) && subscribers == old(subscribers)
                            && recentSignals == old(recentSignals)
      ensures signedIn ==> !loading
      ensures signedIn && communityResp.None? ==>
                community == old(community) && stats == old(stats) && followers == old(followers)
                && subscribers == old(subscribers) && recentSignals == old(recentSignals)
      ensures signedIn && communityResp.Some? ==>
                community == communityResp
                && followers == (if followerCount.Some? then followerCount.value else 0)
                && subscribers == (if subscriberCount.Some? then subscriberCount.value else 0)
                && stats == Some(StatsOrDefault(statsResp, communityResp.value.id))
                && recentSignals == (if signalsResp.Some? then signalsResp.value else [])
    {
      if !signedIn {
        return;
      }
      loading := true;
      if communityResp.None? {
        loading := false;
        return;
      }
      community := communityResp;
      followers := if followerCount.Some? then followerCount.value else 0;
      subscribers := if subscriberCount.Some? then subscriberCount.value else 0;
      stats := Some(StatsOrDefault(statsResp, communityResp.value.id));
      recentSignals := if signalsResp.Some? then signalsResp.value else [];
      loading := false;
    }

    /** handleSignalUpdate, the `onUpdated` of each recent SignalCard. */
    method HandleSignalUpdate(id: string, status: Outcome)
      modifies this`recentSignals, this`stats
      ensures recentSignals == SignalLists.WithStatus(old(recentSignals), id, status)
      ensures stats == ApplyResolution(old(stats), status)
    {
      recentSignals := SignalLists.WithStatus(recentSignals, id, status);
      stats := ApplyResolution(stats, status);
    }

    /** The badges under the community name. */
    function Badges(): (b: MyCommunity.ApprovalBadges)
      reads this
      ensures community.None? ==> b == MyCommunity.ApprovalBadges(false, false)
      ensures community.Some? ==> b == MyCommunity.ApprovalBadgesFor(community.value.status)
      ensures b.pendingApproval <==> community.Some? && community.value.status == AwaitingApproval
      ensures b.active <==> community.Some? && community.value.status == Approved
    {
      if community.None? then MyCommunity.ApprovalBadges(false, false)
      else MyCommunity.ApprovalBadgesFor(community.value.status)
    }
  }
}
