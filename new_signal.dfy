/** The owner's new-signal form: a market among those the community trades,
    an asset of that market, free or VIP, buy or sell, and the three price
    levels as text; the signal is posted pending. */
module NewSignalForm {
  import opened Types
  import opened Numbers
  import Text
  import Store

  /** MARKET_ASSETS: the assets offered for each market, in picker order. */
  datatype AssetCatalog = AssetCatalog(crypto: seq<string>, forex: seq<string>, stocks: seq<string>)

  function AssetsOf(catalog: AssetCatalog, m: Market): seq<string> {
    match m
    case Crypto => catalog.crypto
    case Forex => catalog.forex
    case Stocks => catalog.stocks
  }

  /** `MARKET_ASSETS[m][0]`, undefined for an empty list. */
  function FirstAsset(catalog: AssetCatalog, m: Market): (a: Option<string>)
    ensures a.None? <==> |AssetsOf(catalog, m)| == 0
    ensures a.Some? ==> a.value == AssetsOf(catalog, m)[0] && a.value in AssetsOf(catalog, m)
  {
    if |AssetsOf(catalog, m)| > 0 then Some(AssetsOf(catalog, m)[0]) else None
  }

  /** `text ? Number(text) : null`. */
  function OptionalLevel(text: string): (r: Option<real>)
    ensures text == "" ==> r.None?
    ensures text != "" ==> r == ParseNumber(text)
  {
    if text == "" then None else ParseNumber(text)
  }

  /** What handleCreateSignal ends with; `Posted` navigates back. */
  datatype PostOutcome = NoCommunity | MarketNotTraded | EntryRequired | InsertFailed | Posted

  /** The signals table row the form posts. */
  function Payload(communityId: string, asset: Option<string>, market: Market, signalType: SignalType,
                   direction: Direction, entry: string, takeProfit: string, stopLoss: string): (row: Store.NewSignal)
    ensures row.status == Pending && row.entryPrice == ParseNumber(entry)
    ensures row.takeProfit == OptionalLevel(takeProfit) && row.stopLoss == OptionalLevel(stopLoss)
    ensures row.communityId == communityId && row.asset == asset && row.market == market
    ensures row.signalType == signalType && row.direction == direction
  {
    Store.NewSignal(communityId, asset, market, signalType, direction,
                    ParseNumber(entry), OptionalLevel(takeProfit), OptionalLevel(stopLoss), Pending)
  }

  /** Only an empty entry is refused: white space passes the check and is
      posted as an entry price of 0. */
  lemma BlankEntryPostsZero(communityId: string, asset: Option<string>, market: Market, t: SignalType, d: Direction)
    ensures Payload(communityId, asset, market, t, d, " ", "", "").entryPrice == Some(0.0)
  {
    assert Text.AllSpace(" ");
    Text.TrimEmptyIffBlank(" ");
  }

  class Form {
    const catalog: AssetCatalog
    var community: Option<Community>
    var communityMarkets: seq<Market>
    var market: Market
    var asset: Option<string>
    var signalType: SignalType
    var direction: Direction
    var entryPrice: string
    var takeProfit: string
    var stopLoss: string
    var loading: bool

    /** The selected asset belongs to the selected market, and is undefined
        only when that market offers none. */
    predicate Valid()
      reads this
    {
      (asset.Some? ==> asset.value in AssetsOf(catalog, market))
      && (asset.None? ==> |AssetsOf(catalog, market)| == 0)
    }

    constructor (catalog: AssetCatalog)
      ensures this.catalog == catalog && Valid()
      ensures community.None? && communityMarkets == [] && market == Forex && asset == FirstAsset(catalog, Forex)
      ensures signalType == Free && direction == Buy && entryPrice == "" && takeProfit == "" && stopLoss == ""
      ensures !loading
    {
      this.catalog := catalog;
      community := None;
      communityMarkets := [];
      market := Forex;
      asset := FirstAsset(catalog, Forex);
      signalType := Free;
      direction := Buy;
      entryPrice := "";
      takeProfit := "";
      stopLoss := "";
      loading := false;
    }

    /** fetchCommunity with the owner's community row (`None` for an error)
        and its market rows; the first market traded becomes the default. */
    method LoadCommunity(signedIn: bool, communityResp: Option<Community>, marketsResp: Option<seq<Market>>)
      requires Valid()
      modifies this`community, this`communityMarkets, this`market, this`asset
      ensures Valid()
      ensures !signedIn || communityResp.None? ==>
                community == old(community) && communityMarkets == old(communityMarkets)
                && market == old(market) && asset == old(asset)
      ensures signedIn && communityResp.Some? ==>
                var ms := if marketsResp.Some? then marketsResp.value else [];
                community == communityResp && communityMarkets == ms
                && (|ms| > 0 ==> market == ms[0] && asset == FirstAsset(catalog, ms[0]) && market in communityMarkets)
                && (|ms| == 0 ==> market == old(market) && asset == old(asset))
    {
      if !signedIn || communityResp.None? {
        return;
      }
      community := communityResp;
      var markets := if marketsResp.Some? then marketsResp.value else [];
      communityMarkets := markets;
      if |markets| > 0 {
        market := markets[0];
        asset := FirstAsset(catalog, markets[0]);
      }
    }

    /** handleMarketChange: a market from the picker, with its first asset. */
    method HandleMarketChange(value: Market)
      modifies this`market, this`asset
      ensures market == value && asset == FirstAsset(catalog, value) && Valid()
    {
      market := value;
      asset := FirstAsset(catalog, value);
    }

    /** handleAssetChange: the picker offers the selected market's assets. */
    method HandleAssetChange(value: string)
      requires value in AssetsOf(catalog, market)
      modifies this`asset
      ensures asset == Some(value) && Valid()
    {
      asset := Some(value);
    }

    method SetType(t: SignalType)
      modifies this`signalType
      ensures signalType == t
    {
      signalType := t;
    }

    method SetDirection(d: Direction)
      modifies this`direction
      ensures direction == d
    {
      direction := d;
    }

    method SetLevels(entry: string, tp: string, sl: string)
      modifies this`entryPrice, this`takeProfit, this`stopLoss
      ensures entryPrice == entry && takeProfit == tp && stopLoss == sl
    {
      entryPrice := entry;
      takeProfit := tp;
      stopLoss := sl;
    }

    /** handleCreateSignal: the market is checked first, then the entry
        price; the insert is a pending signal. */
    method HandleCreateSignal(db: Store.Database, fails: bool) returns (outcome: PostOutcome)
      requires Valid()
      modifies this`loading, db`signalInserts
      ensures community.None? ==> outcome == NoCommunity
      ensures community.Some? && market !in communityMarkets ==> outcome == MarketNotTraded
      ensures community.Some? && market in communityMarkets && entryPrice == "" ==> outcome == EntryRequired
      ensures outcome in {NoCommunity, MarketNotTraded, EntryRequired} ==>
                db.signalInserts == old(db.signalInserts) && loading == old(loading)
      ensures community.Some? && market in communityMarkets && entryPrice != "" ==>
                !loading
                && outcome == (if fails then InsertFailed else Posted)
                && db.signalInserts == (if fails then old(db.signalInserts)
                                        else old(db.signalInserts) + [Payload(community.value.id, asset, market, signalType,
                                                                              direction, entryPrice, takeProfit, stopLoss)])
      ensures outcome == Posted ==>
                var row := db.signalInserts[|db.signalInserts| - 1];
                row.status == Pending && row.market in communityMarkets
                && (row.asset.Some? ==> row.asset.value in AssetsOf(catalog, row.market))
    {
      if community.None? {
        return NoCommunity;
      }
      if market !in communityMarkets {
        return MarketNotTraded;
      }
      if entryPrice == "" {
        return EntryRequired;
      }
      loading := true;
      var row := Payload(community.value.id, asset, market, signalType, direction, entryPrice, takeProfit, stopLoss);
      var error := db.InsertSignal(row, fails);
      loading := false;
      if error {
        return InsertFailed;
      }
      outcome := Posted;
    }
  }
}
