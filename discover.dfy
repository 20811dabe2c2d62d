/** The discover screen: every approved community, newest first, twenty per
    page, each with its market chips and its stats row, narrowed on the
    device by a market chip and a search box. */
module Discover {
  import opened Types
  import opened Seqs
  import opened Paging
  import Text
  import opened CommunityCard

  const ItemsPerPage: nat := 20

  /** A communities row with its joined community_markets rows. */
  datatype CommunityRow = CommunityRow(community: Community, markets: seq<Market>)

  /** A row of `select("community_id, total_signals, win_rate")` on community_stats. */
  datatype StatsRow = StatsRow(communityId: string, totalSignals: int, winRate: int)

  /** `.eq("status", "active")`. */
  function IsListed(): CommunityRow -> bool {
    (r: CommunityRow) => r.community.status == Approved
  }

  /** The server's answer to the communities query for page `pageNum`, where
      `table` holds the communities table newest first. */
  function ListingQuery(table: seq<CommunityRow>, pageNum: nat): seq<CommunityRow> {
    PageOf(Keep(table, IsListed()), pageNum, ItemsPerPage)
  }

  /** `communitiesData.map((c) => c.id)`. */
  function IdsOf(rows: seq<CommunityRow>): (ids: seq<string>)
    ensures |ids| == |rows|
    ensures forall i :: 0 <= i < |rows| ==> ids[i] == rows[i].community.id
  {
    seq(|rows|, i requires 0 <= i < |rows| => rows[i].community.id)
  }

  /** `.in("community_id", ids)`. */
  function ForIds(ids: seq<string>): StatsRow -> bool {
    (r: StatsRow) => r.communityId in ids
  }

  /** The stats rows the screen works with: those of the page's communities,
      or none when the stats query gave no data. */
  function StatsQuery(statsTable: seq<StatsRow>, ids: seq<string>, fails: bool): seq<StatsRow> {
    if fails then [] else Keep(statsTable, ForIds(ids))
  }

  function Summary(r: StatsRow): StatsSummary {
    StatsSummary(r.totalSignals, r.winRate)
  }

  /** `statsMap.get(id) || null` on `new Map(stats.map((s) => [s.community_id, s]))`:
      a Map built from pairs keeps the last pair of each key. */
  function StatsLookup(stats: seq<StatsRow>, id: string): (r: Option<StatsSummary>)
    ensures r.None? <==> forall i :: 0 <= i < |stats| ==> stats[i].communityId != id
    ensures r.Some? ==> exists i :: 0 <= i < |stats| && stats[i].communityId == id && r.value == Summary(stats[i])
                                    && forall j :: i < j < |stats| ==> stats[j].communityId != id
  {
    if |stats| == 0 then None
    else if stats[|stats| - 1].communityId == id then Some(Summary(stats[|stats| - 1]))
    else
      var r := StatsLookup(stats[..|stats| - 1], id);
      assert forall i :: 0 <= i < |stats| - 1 ==> stats[..|stats| - 1][i] == stats[i];
      r
  }

  /** Restricting the stats rows to the page's ids loses no stats of the page. */
  lemma {:induction false} StatsLookupFiltered(statsTable: seq<StatsRow>, ids: seq<string>, id: string)
    requires id in ids
    ensures StatsLookup(Keep(statsTable, ForIds(ids)), id) == StatsLookup(statsTable, id)
  {
    if |statsTable| > 0 {
      var init := statsTable[..|statsTable| - 1];
      var last := statsTable[|statsTable| - 1];
      assert statsTable == init + [last];
      KeepConcat(init, [last], ForIds(ids));
      StatsLookupFiltered(init, ids, id);
      var kept := Keep(init, ForIds(ids));
      if last.communityId == id {
        assert Keep([last], ForIds(ids)) == [last];
      } else if ForIds(ids)(last) {
        assert Keep([last], ForIds(ids)) == [last];
        assert (kept + [last])[..|kept + [last]| - 1] == kept;
      } else {
        assert Keep([last], ForIds(ids)) == [];
        assert kept + [] == kept;
      }
    }
  }

  /** The enriched page: every community with its markets and its stats. */
  function Enrich(rows: seq<CommunityRow>, stats: seq<StatsRow>): (r: seq<CommunityListing>)
    ensures |r| == |rows|
    ensures forall i :: 0 <= i < |rows| ==>
              r[i] == CommunityListing(rows[i].community, rows[i].markets, StatsLookup(stats, rows[i].community.id))
  {
    seq(|rows|, i requires 0 <= i < |rows| =>
      CommunityListing(rows[i].community, rows[i].markets, StatsLookup(stats, rows[i].community.id)))
  }

  /** Enriching with the page's stats rows is enriching with the whole stats table. */
  lemma EnrichWithPageStats(rows: seq<CommunityRow>, statsTable: seq<StatsRow>)
    ensures Enrich(rows, StatsQuery(statsTable, IdsOf(rows), false)) == Enrich(rows, statsTable)
  {
    var ids := IdsOf(rows);
    forall i | 0 <= i < |rows|
      ensures StatsLookup(Keep(statsTable, ForIds(ids)), rows[i].community.id) == StatsLookup(statsTable, rows[i].community.id)
    {
      assert ids[i] == rows[i].community.id;
      StatsLookupFiltered(statsTable, ids, rows[i].community.id);
    }
  }

  lemma EnrichConcat(a: seq<CommunityRow>, b: seq<CommunityRow>, stats: seq<StatsRow>)
    ensures Enrich(a + b, stats) == Enrich(a, stats) + Enrich(b, stats)
  {
  }

  /** The market chip: "all" (None) keeps everything, a market keeps the
      communities that list it. */
  predicate MarketMatches(selected: Option<Market>, c: CommunityListing) {
    selected.None? || selected.value in c.markets
  }

  /** The search box: a blank query keeps everything; otherwise the
      lower-cased query, untrimmed, must occur in the lower-cased name or
      description. */
  predicate SearchMatches(query: string, c: CommunityListing) {
    if Text.Trim(query) == [] then true
    else
      var q := Text.Lower(query);
      Text.Contains(Text.Lower(c.community.name), q)
      || (c.community.description.Some? && Text.Contains(Text.Lower(c.community.description.value), q))
  }

  function MarketFilter(selected: Option<Market>): CommunityListing -> bool {
    (c: CommunityListing) => MarketMatches(selected, c)
  }

  function SearchFilter(query: string): CommunityListing -> bool {
    (c: CommunityListing) => SearchMatches(query, c)
  }

  /** `filteredCommunities`: the market filter, then the search filter. */
  function Filtered(cs: seq<CommunityListing>, selected: Option<Market>, query: string): (r: seq<CommunityListing>)
    ensures |r| <= |cs|
    ensures forall c :: c in r <==> c in cs && MarketMatches(selected, c) && SearchMatches(query, c)
  {
    Keep(Keep(cs, MarketFilter(selected)), SearchFilter(query))
  }

  /** The two filters may run in either order. */
  lemma FiltersCommute(cs: seq<CommunityListing>, selected: Option<Market>, query: string)
    ensures Filtered(cs, selected, query) == Keep(Keep(cs, SearchFilter(query)), MarketFilter(selected))
  {
    KeepCommutes(cs, MarketFilter(selected), SearchFilter(query));
  }

  /** With the "all" chip and a blank query the list shows every community loaded. */
  lemma NoFilterShowsAll(cs: seq<CommunityListing>, query: string)
    requires Text.AllSpace(query)
    ensures Filtered(cs, None, query) == cs
  {
    Text.TrimEmptyIffBlank(query);
    KeepAll(cs, MarketFilter(None));
    KeepAll(cs, SearchFilter(query));
  }

  /** Lower-casing never turns a character into white space or out of it. */
  lemma LowerKeepsBlank(s: string)
    ensures Text.AllSpace(Text.Lower(s)) <==> Text.AllSpace(s)
  {
    assert forall i :: 0 <= i < |s| ==> (Text.IsSpace(Text.Lower(s)[i]) <==> Text.IsSpace(s[i]));
  }

  /** The search ignores the case of the query. */
  lemma SearchIgnoresQueryCase(query: string, c: CommunityListing)
    ensures SearchMatches(Text.Lower(query), c) == SearchMatches(query, c)
  {
    LowerKeepsBlank(query);
    Text.TrimEmptyIffBlank(query);
    Text.TrimEmptyIffBlank(Text.Lower(query));
    Text.LowerIdempotent(query);
  }

  /** The query is trimmed only for the blank test: typing a community's
      exact name finds it, and the same name with a trailing space does not
      when the community has no description. */
  lemma TrailingSpaceDefeatsExactName(c: CommunityListing)
    requires c.community.description.None? && !Text.AllSpace(c.community.name)
    ensures SearchMatches(c.community.name, c)
    ensures !SearchMatches(c.community.name + " ", c)
  {
    var name := c.community.name;
    Text.TrimEmptyIffBlank(name);
    Text.TrimEmptyIffBlank(name + " ");
    assert Text.OccursAt(Text.Lower(name), Text.Lower(name), 0);
    assert (name + " ")[..|name|] == name;
    assert !Text.AllSpace(name + " ");
  }

  /** The list the screen holds, the loading flags, the page last requested,
      the market chip (None for "all") and the debounced search text. */
  class Screen {
    var communities: seq<CommunityListing>
    var selectedMarket: Option<Market>
    var loading: bool
    var refreshing: bool
    var loadingMore: bool
    var hasMore: bool
    var page: nat
    var searchQuery: string

    constructor ()
      ensures communities == [] && selectedMarket.None? && loading && !refreshing && !loadingMore
      ensures hasMore && page == 0 && searchQuery == ""
    {
      communities := [];
      selectedMarket := None;
      loading := true;
      refreshing := false;
      loadingMore := false;
      hasMore := true;
      page := 0;
      searchQuery := "";
    }

    /** The screen holds, in order, the first `pages` pages of the approved
        communities of `table`, each with its stats from `statsTable`. */
    ghost predicate Shows(table: seq<CommunityRow>, statsTable: seq<StatsRow>, pages: nat)
      reads this
    {
      communities == Enrich(Loaded(Keep(table, IsListed()), pages, ItemsPerPage), statsTable)
    }

    /** fetchCommunities up to its first await. */
    method StartFetch(append: bool)
      modifies this`loading, this`loadingMore
      ensures loading == (!append || old(loading))
      ensures loadingMore == (append || old(loadingMore))
    {
      if !append {
        loading := true;
      } else {
        loadingMore := true;
      }
    }

    /** The rest of fetchCommunities, once the page of communities and then
        the stats rows have come back. An error leaves the list as it was; an
        empty page ends the paging and, on a fresh load, empties the list. */
    method FinishFetch(pageNum: nat, append: bool, table: seq<CommunityRow>, queryFails: bool,
                       statsTable: seq<StatsRow>, statsFails: bool)
      modifies this`communities, this`loading, this`loadingMore, this`hasMore
      ensures !loading && !loadingMore
      ensures queryFails ==> communities == old(communities) && hasMore == old(hasMore)
      ensures !queryFails ==>
                var page := ListingQuery(table, pageNum);
                communities == (if append then old(communities) else [])
                               + Enrich(page, StatsQuery(statsTable, IdsOf(page), statsFails))
                && hasMore == (|page| == ItemsPerPage)
      ensures (!queryFails && !statsFails && (if append then old(Shows(table, statsTable, pageNum)) else pageNum == 0))
              ==> (Shows(table, statsTable, pageNum + 1)
                   && (!hasMore ==> communities == Enrich(Keep(table, IsListed()), statsTable)))
    {
      if queryFails {
        loading := false;
        loadingMore := false;
        return;
      }
      var rows := Keep(table, IsListed());
      var data := ListingQuery(table, pageNum);
      ghost var before := communities;
      if |data| == 0 {
        if !append {
          communities := [];
        }
        hasMore := false;
        loading := false;
        loadingMore := false;
      } else {
        var stats := StatsQuery(statsTable, IdsOf(data), statsFails);
        var enriched := Enrich(data, stats);
        if append {
          communities := communities + enriched;
        } else {
          communities := enriched;
        }
        hasMore := |enriched| == ItemsPerPage;
        loading := false;
        loadingMore := false;
      }
      if !statsFails {
        EnrichWithPageStats(data, statsTable);
        if append && before == Enrich(Loaded(rows, pageNum, ItemsPerPage), statsTable) {
          EnrichConcat(Loaded(rows, pageNum, ItemsPerPage), data, statsTable);
        }
        if !append && pageNum == 0 {
          assert Loaded(rows, 1, ItemsPerPage) == [] + PageOf(rows, 0, ItemsPerPage);
        }
        if !hasMore {
          ShortPageMeansEnd(rows, pageNum, ItemsPerPage);
        }
      }
    }

    /** The mount effect and the head of onRefresh: page 0 and a fresh load. */
    method Reload(pull: bool)
      modifies this`refreshing, this`page, this`loading, this`loadingMore
      ensures page == 0 && loading && loadingMore == old(loadingMore)
      ensures refreshing == (pull || old(refreshing))
    {
      if pull {
        refreshing := true;
      }
      page := 0;
      StartFetch(false);
    }

    /** The tail of onRefresh. */
    method EndRefresh()
      modifies this`refreshing
      ensures !refreshing
    {
      refreshing := false;
    }

    /** loadMore: ignored while a next page is loading or after a short page;
        otherwise the page counter advances and the next page is requested. */
    method LoadMore() returns (started: bool, pageNum: nat)
      modifies this`page, this`loading, this`loadingMore
      ensures started == (!old(loadingMore) && old(hasMore))
      ensures page == (if started then old(page) + 1 else old(page))
      ensures pageNum == page && loading == old(loading)
      ensures loadingMore == (started || old(loadingMore))
    {
      started := false;
      pageNum := page;
      if !loadingMore && hasMore {
        page := page + 1;
        pageNum := page;
        started := true;
        StartFetch(true);
      }
    }

    method SelectMarket(m: Option<Market>)
      modifies this`selectedMarket
      ensures selectedMarket == m
    {
      selectedMarket := m;
    }

    /** The debounced search text settling on a new value. */
    method SetSearch(query: string)
      modifies this`searchQuery
      ensures searchQuery == query
    {
      searchQuery := query;
    }

    /** The cards the list renders. */
    function Visible(): (r: seq<CommunityListing>)
      reads this
      ensures |r| <= |communities|
      ensures forall c :: c in r <==> c in communities && MarketMatches(selectedMarket, c) && SearchMatches(searchQuery, c)
    {
      Filtered(communities, selectedMarket, searchQuery)
    }
  }
}
