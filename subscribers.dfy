/** The owner's subscribers screen: counts, revenue and this month's
    movement, computed from the community's subscription rows. */
module Subscribers {
  import opened Types
  import opened Seqs
  import Arith

  /** A local calendar month; `calendar` maps a timestamp to the month it
      falls in under the device's time zone. */
  datatype YearMonth = YearMonth(year: int, month: int)

  datatype SubscriberStats = SubscriberStats(
    total: nat,
    active: nat,
    expired: nat,
    activePercent: int,
    monthlyRevenue: int,
    gainedThisMonth: nat,
    lostThisMonth: nat,
    activeSubscribers: seq<Subscriber>)

  function IsActive(): Subscriber -> bool { (s: Subscriber) => s.status == Active }
  function IsExpired(): Subscriber -> bool { (s: Subscriber) => s.status == Expired }

  function StartedIn(today: YearMonth, calendar: int -> YearMonth): Subscriber -> bool {
    (s: Subscriber) => calendar(s.startDate) == today
  }

  function EndedIn(today: YearMonth, calendar: int -> YearMonth): Subscriber -> bool {
    (s: Subscriber) => s.status == Expired && calendar(s.endDate) == today
  }

  /** The `stats` memo: the price is the community's subscription price
      (absent with no community or a null price) and `today` the current month. */
  function Stats(subscribers: seq<Subscriber>, price: Option<int>, today: YearMonth, calendar: int -> YearMonth): (st: SubscriberStats)
    ensures st.total == |subscribers|
    ensures st.active + st.expired == st.total
    ensures st.active == |st.activeSubscribers|
    ensures forall s :: s in st.activeSubscribers <==> s in subscribers && s.status == Active
    ensures st.total == 0 ==> st.activePercent == 0
    ensures st.total > 0 ==> st.activePercent == Arith.Percent(st.active, st.total)
    ensures 0 <= st.activePercent <= 100
    ensures st.monthlyRevenue == st.active * (if price.Some? then price.value else 0)
    ensures st.gainedThisMonth <= st.total
    ensures st.lostThisMonth <= st.expired
  {
    var active := Keep(subscribers, IsActive());
    var expired := Keep(subscribers, IsExpired());
    var total := |subscribers|;
    KeepPartition(subscribers, IsActive(), IsExpired());
    KeepMonotone(subscribers, EndedIn(today, calendar), IsExpired());
    SubscriberStats(
      total,
      |active|,
      |expired|,
      if total > 0 then Arith.Percent(|active|, total) else 0,
      |active| * (if price.Some? then price.value else 0),
      |Keep(subscribers, StartedIn(today, calendar))|,
      |Keep(subscribers, EndedIn(today, calendar))|,
      active)
  }

  /** The active list keeps the rows' order: it is the rows with the expired
      ones taken out. */
  lemma {:induction false} ActiveListIsOrderedSubsequence(subscribers: seq<Subscriber>, i: nat)
    requires i < |subscribers| && subscribers[i].status == Active
    ensures var before := Keep(subscribers[..i], IsActive());
            |before| < |Keep(subscribers, IsActive())| && Keep(subscribers, IsActive())[|before|] == subscribers[i]
  {
    assert subscribers == subscribers[..i] + subscribers[i..];
    KeepConcat(subscribers[..i], subscribers[i..], IsActive());
    assert subscribers[i..][0] == subscribers[i];
  }

  /** Everyone active and none expired shows 100%, and no one active shows 0%. */
  lemma PercentExtremes(subscribers: seq<Subscriber>, price: Option<int>, today: YearMonth, calendar: int -> YearMonth)
    requires |subscribers| > 0
    ensures Stats(subscribers, price, today, calendar).expired == 0 ==> Stats(subscribers, price, today, calendar).activePercent == 100
    ensures Stats(subscribers, price, today, calendar).active == 0 ==> Stats(subscribers, price, today, calendar).activePercent == 0
  {
  }

  /** What the screen holds between renders. */
  datatype Roster = Roster(community: Option<Community>, subscribers: seq<Subscriber>, loading: bool)

  /** fetchSubscribersData given the store's answers: a failed subscriptions
      query is logged and shows an empty list. */
  function Fetch(s: Roster, signedIn: bool, communityResp: Option<Community>, subscribersResp: Option<seq<Subscriber>>): (r: Roster)
    ensures !signedIn ==> r == s
    ensures signedIn ==> !r.loading
    ensures signedIn && communityResp.None? ==> r.community == s.community && r.subscribers == s.subscribers
    ensures signedIn && communityResp.Some? ==>
              r.community == communityResp && r.subscribers == (if subscribersResp.Some? then subscribersResp.value else [])
  {
    if !signedIn then s
    else if communityResp.None? then s.(loading := false)
    else Roster(communityResp, if subscribersResp.Some? then subscribersResp.value else [], false)
  }

  /** The revenue line uses the same price fallback as the total. */
  function PriceOf(s: Roster): (p: Option<int>)
    ensures s.community.None? ==> p.None?
    ensures s.community.Some? ==> p == s.community.value.subscriptionPrice
  {
    if s.community.Some? then s.community.value.subscriptionPrice else None
  }

  /** The screen's revenue: active subscribers times the roster community's
      stored price, 0 with no community or a null price. */
  lemma RosterRevenue(r: Roster, today: YearMonth, calendar: int -> YearMonth)
    ensures var st := Stats(r.subscribers, PriceOf(r), today, calendar);
            st.monthlyRevenue == st.active * (if r.community.Some? && r.community.value.subscriptionPrice.Some?
                                              then r.community.value.subscriptionPrice.value else 0)
  {
  }
}
