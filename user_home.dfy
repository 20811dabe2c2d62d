/** The user's home feed: signals of every community the user follows or
    subscribes to, newest first, 20 per page, each shown in full or locked. */
module UserHome {
  import opened Types
  import opened Seqs
  import opened Paging
  import LockedSignalCard
  import UserSignalCard

  const ItemsPerPage: nat := 20

  /** The community joined into each feed row (id, name, subscription price). */
  datatype CommunityRef = CommunityRef(id: string, name: string, subscriptionPrice: Option<int>)

  /** One row of the feed query: a signal and its joined community, which is
      absent when the join found nothing. */
  datatype FeedRow = FeedRow(signal: Signal, community: Option<CommunityRef>)

  /** A feed row enriched with whether the user holds an active subscription
      to its community. */
  datatype FeedSignal = FeedSignal(row: FeedRow, isSubscribed: bool)

  /** `data?.map(r => r.community_id) ?? []`: a failed lookup reads as no rows. */
  function IdsOrEmpty(rows: Option<seq<string>>): seq<string> {
    if rows.Some? then rows.value else []
  }

  /** `Array.from(new Set([...followedIds, ...subscribedIds]))`. */
  function VisibleCommunities(followed: seq<string>, subscribed: seq<string>): (ids: seq<string>)
    ensures forall c :: c in ids <==> c in followed || c in subscribed
    ensures NoDuplicates(ids)
    ensures |ids| == 0 <==> |followed| == 0 && |subscribed| == 0
  {
    var ids := Distinct(followed + subscribed);
    assert |followed| > 0 ==> followed[0] in ids;
    assert |subscribed| > 0 ==> subscribed[0] in ids;
    ids
  }

  /** `.in("community_id", ids)`. */
  function InCommunities(ids: seq<string>): FeedRow -> bool {
    (r: FeedRow) => r.signal.communityId in ids
  }

  /** The server's answer to the feed query for page `pageNum`, where `table`
      holds the signals table newest first. */
  function FeedQuery(table: seq<FeedRow>, ids: seq<string>, pageNum: nat): seq<FeedRow> {
    PageOf(Keep(table, InCommunities(ids)), pageNum, ItemsPerPage)
  }

  /** `isSubscribed: subscribedIds.includes(signal.community_id)`. */
  function Enrich(rows: seq<FeedRow>, subscribedIds: seq<string>): (r: seq<FeedSignal>)
    ensures |r| == |rows|
    ensures forall i :: 0 <= i < |r| ==> r[i].row == rows[i]
    ensures forall i :: 0 <= i < |r| ==> (r[i].isSubscribed <==> rows[i].signal.communityId in subscribedIds)
  {
    seq(|rows|, i requires 0 <= i < |rows| => FeedSignal(rows[i], rows[i].signal.communityId in subscribedIds))
  }

  lemma EnrichConcat(a: seq<FeedRow>, b: seq<FeedRow>, subscribedIds: seq<string>)
    ensures Enrich(a + b, subscribedIds) == Enrich(a, subscribedIds) + Enrich(b, subscribedIds)
  {
  }

  /** `item.type === "vip" && !item.isSubscribed`. */
  predicate IsLocked(f: FeedSignal) {
    f.row.signal.signalType == Vip && !f.isSubscribed
  }

  /** The card the feed renders for one item. */
  datatype Card = Locked(locked: LockedSignalCard.View) | Unlocked(full: UserSignalCard.View)

  function CommunityName(r: FeedRow): Option<string> {
    if r.community.Some? then Some(r.community.value.name) else None
  }

  function CardFor(f: FeedSignal, now: int): (c: Card)
    ensures c.Locked? <==> IsLocked(f)
  {
    if IsLocked(f) then Locked(LockedSignalCard.Render(f.row.signal, CommunityName(f.row), now))
    else Unlocked(UserSignalCard.Render(f.row.signal, CommunityName(f.row), now))
  }

  /** A feed item shows its price levels exactly when the signal is free or
      the user actively subscribes to its community; following alone does
      not unlock a VIP signal. */
  lemma UnlockedIffFreeOrSubscribed(rows: seq<FeedRow>, subscribedIds: seq<string>, i: nat, now: int)
    requires i < |rows|
    ensures CardFor(Enrich(rows, subscribedIds)[i], now).Unlocked?
            <==> rows[i].signal.signalType == Free || rows[i].signal.communityId in subscribedIds
  {
  }

  /** The filter chips. */
  datatype FeedFilter = All | FreeOnly | VipOnly | PendingOnly | MarketOnly(market: Market)

  predicate Matches(filter: FeedFilter, f: FeedSignal) {
    match filter
    case All => true
    case FreeOnly => f.row.signal.signalType == Free
    case VipOnly => f.row.signal.signalType == Vip
    case PendingOnly => f.row.signal.status == Pending
    case MarketOnly(m) => f.row.signal.market == m
  }

  function MatchesFilter(filter: FeedFilter): FeedSignal -> bool {
    (f: FeedSignal) => Matches(filter, f)
  }

  /** `signals.filter(...)` for the active chip. */
  function Filtered(signals: seq<FeedSignal>, filter: FeedFilter): seq<FeedSignal> {
    Keep(signals, MatchesFilter(filter))
  }

  /** "All" shows the whole feed. */
  lemma FilterAllIsIdentity(signals: seq<FeedSignal>)
    ensures Filtered(signals, All) == signals
  {
    KeepAll(signals, MatchesFilter(All));
  }

  /** Every signal is free or VIP: the two chips split the feed. */
  lemma FreeAndVipSplitFeed(signals: seq<FeedSignal>)
    ensures |Filtered(signals, FreeOnly)| + |Filtered(signals, VipOnly)| == |signals|
  {
    KeepPartition(signals, MatchesFilter(FreeOnly), MatchesFilter(VipOnly));
  }

  /** Each market chip shows exactly the feed's signals of that market, and
      the three market chips together show the whole feed. */
  lemma {:induction false} MarketsSplitFeed(signals: seq<FeedSignal>)
    ensures |Filtered(signals, MarketOnly(Crypto))| + |Filtered(signals, MarketOnly(Forex))|
            + |Filtered(signals, MarketOnly(Stocks))| == |signals|
  {
    if |signals| > 0 {
      MarketsSplitFeed(signals[1..]);
    }
  }

  /** The list the screen holds, its loading flags, the page last requested
      and the active chip. */
  class Feed {
    var signals: seq<FeedSignal>
    var loading: bool
    var refreshing: bool
    var loadingMore: bool
    var hasMore: bool
    var page: nat
    var activeFilter: FeedFilter

    constructor ()
      ensures signals == [] && loading && !refreshing && !loadingMore && hasMore
      ensures page == 0 && activeFilter == All
    {
      signals := [];
      loading := true;
      refreshing := false;
      loadingMore := false;
      hasMore := true;
      page := 0;
      activeFilter := All;
    }

    /** The feed holds, in order, the first `pages` pages of the matching
        rows of `table`, enriched with the subscription state. */
    ghost predicate Shows(table: seq<FeedRow>, followed: seq<string>, subscribed: seq<string>, pages: nat)
      reads this
    {
      signals == Enrich(Loaded(Keep(table, InCommunities(VisibleCommunities(followed, subscribed))), pages, ItemsPerPage), subscribed)
    }

    /** fetchFeed up to its first await: nothing without a signed-in user,
        otherwise the spinner for a fresh load or the footer for a next page. */
    method StartFetch(append: bool, signedIn: bool) returns (started: bool)
      modifies this`loading, this`loadingMore
      ensures started == signedIn
      ensures loading == ((signedIn && !append) || old(loading))
      ensures loadingMore == ((signedIn && append) || old(loadingMore))
    {
      started := signedIn;
      if signedIn {
        if !append {
          loading := true;
        } else {
          loadingMore := true;
        }
      }
    }

    /** The rest of fetchFeed, once the follows, the active subscriptions and
        the page of signals have come back. */
    method FinishFetch(pageNum: nat, append: bool, follows: Option<seq<string>>, subs: Option<seq<string>>,
                       table: seq<FeedRow>, queryFails: bool)
      modifies this`signals, this`loading, this`loadingMore, this`hasMore
      ensures !loading && !loadingMore
      ensures var ids := VisibleCommunities(IdsOrEmpty(follows), IdsOrEmpty(subs));
        if |ids| == 0 then signals == [] && !hasMore
        else if queryFails then signals == old(signals) && hasMore == old(hasMore)
        else
          var page := Enrich(FeedQuery(table, ids, pageNum), IdsOrEmpty(subs));
          signals == (if append then old(signals) else []) + page
          && hasMore == (|page| == ItemsPerPage)
      ensures var ids := VisibleCommunities(IdsOrEmpty(follows), IdsOrEmpty(subs));
        (|ids| > 0 && !queryFails && (if append then old(Shows(table, IdsOrEmpty(follows), IdsOrEmpty(subs), pageNum)) else pageNum == 0))
        ==> (Shows(table, IdsOrEmpty(follows), IdsOrEmpty(subs), pageNum + 1)
             && (!hasMore ==> signals == Enrich(Keep(table, InCommunities(ids)), IdsOrEmpty(subs))))
    {
      var followedIds := IdsOrEmpty(follows);
      var subscribedIds := IdsOrEmpty(subs);
      var ids := VisibleCommunities(followedIds, subscribedIds);
      if |ids| == 0 {
        signals := [];
        loading := false;
        loadingMore := false;
        hasMore := false;
        return;
      }
      if queryFails {
        loading := false;
        loadingMore := false;
        return;
      }
      var rows := Keep(table, InCommunities(ids));
      var enriched := Enrich(FeedQuery(table, ids, pageNum), subscribedIds);
      ghost var before := signals;
      if append {
        signals := signals + enriched;
      } else {
        signals := enriched;
      }
      hasMore := |enriched| == ItemsPerPage;
      loading := false;
      loadingMore := false;
      if append && before == Enrich(Loaded(rows, pageNum, ItemsPerPage), subscribedIds) {
        EnrichConcat(Loaded(rows, pageNum, ItemsPerPage), PageOf(rows, pageNum, ItemsPerPage), subscribedIds);
      }
      if !append && pageNum == 0 {
        assert Loaded(rows, 1, ItemsPerPage) == [] + PageOf(rows, 0, ItemsPerPage);
      }
      if !hasMore {
        ShortPageMeansEnd(rows, pageNum, ItemsPerPage);
      }
    }

    /** loadMore: ignored while a next page is loading or when the last page
        came back short; otherwise the page counter advances first. */
    method LoadMore(signedIn: bool) returns (started: bool, pageNum: nat)
      modifies this`page, this`loading, this`loadingMore
      ensures var go := !old(loadingMore) && old(hasMore);
        page == (if go then old(page) + 1 else old(page))
        && started == (go && signedIn)
        && pageNum == page
        && loading == old(loading)
        && loadingMore == (started || old(loadingMore))
    {
      started := false;
      pageNum := page;
      if !loadingMore && hasMore {
        page := page + 1;
        pageNum := page;
        started := StartFetch(true, signedIn);
      }
    }

    /** The focus effect: back to page 0 and a fresh load. */
    method Focus(signedIn: bool) returns (started: bool)
      modifies this`page, this`loading, this`loadingMore
      ensures page == 0 && started == signedIn
      ensures loading == (signedIn || old(loading)) && loadingMore == old(loadingMore)
    {
      page := 0;
      started := StartFetch(false, signedIn);
    }

    /** onRefresh up to its await; EndRefresh is the part after it. */
    method BeginRefresh(signedIn: bool) returns (started: bool)
      modifies this`refreshing, this`page, this`loading, this`loadingMore
      ensures refreshing && page == 0 && started == signedIn
      ensures loading == (signedIn || old(loading)) && loadingMore == old(loadingMore)
    {
      refreshing := true;
      page := 0;
      started := StartFetch(false, signedIn);
    }

    method EndRefresh()
      modifies this`refreshing
      ensures !refreshing
    {
      refreshing := false;
    }

    method SetFilter(filter: FeedFilter)
      modifies this`activeFilter
      ensures activeFilter == filter
    {
      activeFilter := filter;
    }

    /** The items the list renders under the active chip. */
    function Visible(): (r: seq<FeedSignal>)
      reads this
      ensures |r| <= |signals|
      ensures forall f :: f in r <==> f in signals && Matches(activeFilter, f)
    {
      Filtered(signals, activeFilter)
    }
  }
}
