/** The community onboarding form: a new owner names the community,
    describes it, sets a price and picks markets; the community is created
    awaiting approval, then its market rows are written. */
module OnboardingCommunity {
  import opened Types
  import opened Numbers
  import Store
  import MarketPicker
  import MyCommunity
  import Discover

  /** The alerts createCommunity can stop at before any write. */
  datatype Rejection = NotSignedIn | NameRequired | DescriptionRequired | PriceRequired | NoMarket

  /** The checks in their order; only empty text counts as missing. */
  function Validate(signedIn: bool, name: string, description: string, price: string, markets: seq<Market>)
    : (r: Option<Rejection>)
    ensures r.None? <==> signedIn && name != "" && description != "" && price != "" && |markets| > 0
    ensures r == Some(NotSignedIn) <==> !signedIn
    ensures r == Some(NameRequired) <==> signedIn && name == ""
    ensures r == Some(DescriptionRequired) <==> signedIn && name != "" && description == ""
    ensures r == Some(PriceRequired) <==> signedIn && name != "" && description != "" && price == ""
    ensures r == Some(NoMarket) <==> signedIn && name != "" && description != "" && price != "" && |markets| == 0
  {
    if !signedIn then Some(NotSignedIn)
    else if name == "" then Some(NameRequired)
    else if description == "" then Some(DescriptionRequired)
    else if price == "" then Some(PriceRequired)
    else if |markets| == 0 then Some(NoMarket)
    else None
  }

  /** A form of white space only passes validation: nothing is trimmed. */
  lemma BlankNamePasses(markets: seq<Market>)
    requires |markets| > 0
    ensures Validate(true, " ", " ", "5", markets).None?
  {
  }

  /** The community row the form submits. */
  function NewRow(ownerId: string, name: string, description: string, price: string): (row: Store.NewCommunity)
    ensures row.status == AwaitingApproval && row.price == ParseNumber(price)
    ensures row.ownerId == ownerId && row.name == name && row.description == description
  {
    Store.NewCommunity(ownerId, name, description, ParseNumber(price), AwaitingApproval)
  }

  /** A new community shows the "pending approval" badge and is not listed
      on the discover screen until its status changes. */
  lemma NewCommunityAwaitsApproval(c: Community, markets: seq<Market>)
    requires c.status == AwaitingApproval
    ensures MyCommunity.ApprovalBadgesFor(c.status) == MyCommunity.ApprovalBadges(true, false)
    ensures !Discover.IsListed()(Discover.CommunityRow(c, markets))
  {
  }

  /** What createCommunity ends with; `Created` navigates to the dashboard. */
  datatype CreateOutcome = Rejected(reason: Rejection) | CommunityInsertFailed | MarketsInsertFailed | Created

  class Form {
    var name: string
    var description: string
    var price: string
    var markets: seq<Market>
    var loading: bool

    constructor ()
      ensures name == "" && description == "" && price == "" && markets == [] && !loading
    {
      name := "";
      description := "";
      price := "";
      markets := [];
      loading := false;
    }

    method SetName(s: string)
      modifies this`name
      ensures name == s
    {
      name := s;
    }

    method SetDescription(s: string)
      modifies this`description
      ensures description == s
    {
      description := s;
    }

    method SetPrice(s: string)
      modifies this`price
      ensures price == s
    {
      price := s;
    }

    /** toggleMarket. */
    method ToggleMarket(m: Market)
      modifies this`markets
      ensures markets == MarketPicker.Toggle(old(markets), m)
    {
      markets := MarketPicker.Toggle(markets, m);
    }

    /** createCommunity with the signed-in user's id (None when signed out),
        the id the store assigns and the outcomes of the two inserts. */
    method CreateCommunity(userId: Option<string>, db: Store.Database, newId: string,
                           communityFails: bool, marketsFails: bool)
      returns (outcome: CreateOutcome)
      modifies this`loading, db`communities, db`marketRows
      ensures var v := Validate(userId.Some?, name, description, price, markets);
        if v.Some? then
          outcome == Rejected(v.value) && loading == old(loading)
          && db.communities == old(db.communities) && db.marketRows == old(db.marketRows)
        else
          var row := NewRow(userId.value, name, description, price);
          var inserted := !communityFails && Store.FitsPriceColumn(row.price);
          !loading
          && db.communities == (if inserted
                                then old(db.communities)[newId := Community(newId, userId.value, name, Some(description),
                                                                            AwaitingApproval, Store.ColumnPrice(row.price))]
                                else old(db.communities))
          && (!inserted ==> outcome == CommunityInsertFailed && db.marketRows == old(db.marketRows))
          && (inserted && marketsFails ==> outcome == MarketsInsertFailed && db.marketRows == old(db.marketRows))
          && (inserted && !marketsFails ==>
                outcome == Created
                && db.marketRows == old(db.marketRows) + Store.RowsFor(newId, markets)
                && (Store.MarketsOf(old(db.marketRows), newId) == [] ==> Store.MarketsOf(db.marketRows, newId) == markets))
    {
      var v := Validate(userId.Some?, name, description, price, markets);
      if v.Some? {
        return Rejected(v.value);
      }
      loading := true;
      var created := db.InsertCommunity(NewRow(userId.value, name, description, price), newId, communityFails);
      if created.None? {
        loading := false;
        return CommunityInsertFailed;
      }
      ghost var before := db.marketRows;
      var error := db.InsertMarkets(Store.RowsFor(created.value.id, markets), marketsFails);
      if error {
        loading := false;
        return MarketsInsertFailed;
      }
      Store.MarketsOfConcat(before, Store.RowsFor(newId, markets), newId);
      Store.MarketsOfRowsFor(newId, newId, markets);
      loading := false;
      outcome := Created;
    }
  }
}
