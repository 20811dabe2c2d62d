/** The hosted store, reduced to the tables the core writes: signals (keyed by
    id), communities (keyed by id), community_markets rows, and the log of
    signal inserts. Every write takes `fails`, the network or backend outcome,
    as a parameter: on failure the table is unchanged and an error is returned. */
module Store {
  import opened Types
  import opened Seqs

  /** `update({ status: result }).eq("id", id).eq("status", "pending")`:
      a compare-and-swap on the status column. */
  function ResolveIfPending(rows: map<string, Signal>, id: string, result: Outcome): (r: map<string, Signal>)
  {
    if id in rows && rows[id].status == Pending then rows[id := rows[id].(status := result)] else rows
  }

  /** The conditional write touches at most the row with that id, and only its status. */
  lemma ResolveFrame(rows: map<string, Signal>, id: string, result: Outcome)
    ensures ResolveIfPending(rows, id, result).Keys == rows.Keys
    ensures forall k :: k in rows && k != id ==> ResolveIfPending(rows, id, result)[k] == rows[k]
    ensures id in rows ==> ResolveIfPending(rows, id, result)[id] == rows[id].(status := ResolveIfPending(rows, id, result)[id].status)
  {
  }

  /** A row that is no longer pending is never written again. */
  lemma ResolvedRowIsFinal(rows: map<string, Signal>, id: string, result: Outcome)
    requires id in rows && rows[id].status != Pending
    ensures ResolveIfPending(rows, id, result) == rows
  {
  }

  /** Of two resolutions of one signal, in sequence or racing, the first one
      wins and the second is a no-op; resolving twice equals resolving once. */
  lemma FirstResolutionWins(rows: map<string, Signal>, id: string, first: Outcome, second: Outcome)
    ensures ResolveIfPending(ResolveIfPending(rows, id, first), id, second) == ResolveIfPending(rows, id, first)
    ensures id in rows && rows[id].status == Pending ==> ResolveIfPending(rows, id, first)[id].status == first
  {
  }

  /** The subscription_price column holds whole numbers or null: a number
      with a fraction is refused. The None of a price is the JSON null that
      NaN serialises to. */
  predicate FitsPriceColumn(price: Option<real>) {
    price.None? || price.value.Floor as real == price.value
  }

  function ColumnPrice(price: Option<real>): (r: Option<int>)
    requires FitsPriceColumn(price)
    ensures r.None? <==> price.None?
    ensures r.Some? ==> r.value as real == price.value
  {
    if price.None? then None else Some(price.value.Floor)
  }

  /** A partial update of a community row; an absent field is left as it is. */
  datatype CommunityUpdate = CommunityUpdate(name: Option<string>, description: Option<string>, price: Option<Option<real>>)
  {
    predicate IsEmpty() {
      name.None? && description.None? && price.None?
    }

    /** The store accepts the update. */
    predicate Fits() {
      price.None? || FitsPriceColumn(price.value)
    }
  }

  function ApplyUpdate(c: Community, u: CommunityUpdate): (r: Community)
    requires u.Fits()
    ensures r.id == c.id && r.ownerId == c.ownerId && r.status == c.status
    ensures r.name == if u.name.Some? then u.name.value else c.name
    ensures r.description == if u.description.Some? then Some(u.description.value) else c.description
    ensures r.subscriptionPrice == if u.price.Some? then ColumnPrice(u.price.value) else c.subscriptionPrice
    ensures u.IsEmpty() ==> r == c
  {
    c.(name := if u.name.Some? then u.name.value else c.name,
       description := if u.description.Some? then Some(u.description.value) else c.description,
       subscriptionPrice := if u.price.Some? then ColumnPrice(u.price.value) else c.subscriptionPrice)
  }

  /** The payload of an insert into the communities table. */
  datatype NewCommunity = NewCommunity(ownerId: string, name: string, description: string,
                                       price: Option<real>, status: CommunityStatus)

  /** The markets stored for a community, in row order. */
  function MarketsOf(rows: seq<MarketRow>, cid: string): (ms: seq<Market>)
    ensures |ms| <= |rows|
  {
    if |rows| == 0 then []
    else (if rows[0].communityId == cid then [rows[0].market] else []) + MarketsOf(rows[1..], cid)
  }

  /** One community_markets row per market, each carrying the community id. */
  function RowsFor(cid: string, ms: seq<Market>): (rows: seq<MarketRow>)
    ensures |rows| == |ms|
    ensures forall i :: 0 <= i < |ms| ==> rows[i] == MarketRow(cid, ms[i])
  {
    if |ms| == 0 then [] else [MarketRow(cid, ms[0])] + RowsFor(cid, ms[1..])
  }

  /** The rows `delete().eq("community_id", cid)` leaves. */
  function NotOf(cid: string): MarketRow -> bool {
    (r: MarketRow) => r.communityId != cid
  }

  lemma {:induction false} MarketsOfConcat(a: seq<MarketRow>, b: seq<MarketRow>, cid: string)
    ensures MarketsOf(a + b, cid) == MarketsOf(a, cid) + MarketsOf(b, cid)
  {
    if |a| == 0 {
      assert a + b == b;
    } else {
      var head := if a[0].communityId == cid then [a[0].market] else [];
      assert (a + b)[0] == a[0];
      assert (a + b)[1..] == a[1..] + b;
      assert MarketsOf(a + b, cid) == head + MarketsOf(a[1..] + b, cid);
      MarketsOfConcat(a[1..], b, cid);
      assert MarketsOf(a, cid) == head + MarketsOf(a[1..], cid);
    }
  }

  lemma {:induction false} MarketsOfRowsFor(cid: string, other: string, ms: seq<Market>)
    ensures MarketsOf(RowsFor(cid, ms), other) == if other == cid then ms else []
  {
    if |ms| > 0 {
      MarketsOfRowsFor(cid, other, ms[1..]);
    }
  }

  lemma {:induction false} MarketsOfAfterDelete(rows: seq<MarketRow>, cid: string, other: string)
    ensures MarketsOf(Keep(rows, NotOf(cid)), other) == if other == cid then [] else MarketsOf(rows, other)
  {
    if |rows| > 0 {
      MarketsOfAfterDelete(rows[1..], cid, other);
      var head := if NotOf(cid)(rows[0]) then [rows[0]] else [];
      assert Keep(rows, NotOf(cid)) == head + Keep(rows[1..], NotOf(cid));
      MarketsOfConcat(head, Keep(rows[1..], NotOf(cid)), other);
    }
  }

  /** Delete-then-insert replaces one community's market set by `ms` and
      leaves every other community's markets as they were. */
  lemma ReplaceMarkets(rows: seq<MarketRow>, cid: string, ms: seq<Market>, other: string)
    ensures MarketsOf(Keep(rows, NotOf(cid)) + RowsFor(cid, ms), cid) == ms
    ensures other != cid ==> MarketsOf(Keep(rows, NotOf(cid)) + RowsFor(cid, ms), other) == MarketsOf(rows, other)
  {
    var kept := Keep(rows, NotOf(cid));
    var added := RowsFor(cid, ms);
    MarketsOfConcat(kept, added, cid);
    MarketsOfAfterDelete(rows, cid, cid);
    MarketsOfRowsFor(cid, cid, ms);
    assert MarketsOf(kept + added, cid) == [] + ms;
    if other != cid {
      MarketsOfConcat(kept, added, other);
      MarketsOfAfterDelete(rows, cid, other);
      MarketsOfRowsFor(cid, other, ms);
      assert MarketsOf(kept + added, other) == MarketsOf(rows, other) + [];
    }
  }

  /** The payload of an insert into the signals table. Numbers parsed from
      text are None when Number(...) gave NaN (serialised as null); the asset
      is None when it was undefined (a key JSON drops). */
  datatype NewSignal = NewSignal(
    communityId: string,
    asset: Option<string>,
    market: Market,
    signalType: SignalType,
    direction: Direction,
    entryPrice: Option<real>,
    takeProfit: Option<real>,
    stopLoss: Option<real>,
    status: SignalStatus)

  class Database {
    var signals: map<string, Signal>
    var communities: map<string, Community>
    var marketRows: seq<MarketRow>
    var signalInserts: seq<NewSignal>

    constructor (signals: map<string, Signal>, communities: map<string, Community>, marketRows: seq<MarketRow>)
      ensures this.signals == signals && this.communities == communities
      ensures this.marketRows == marketRows && this.signalInserts == []
    {
      this.signals := signals;
      this.communities := communities;
      this.marketRows := marketRows;
      this.signalInserts := [];
    }

    /** The conditional status update; `affected` is the number of rows it matched. */
    method UpdateSignalIfPending(id: string, result: Outcome, fails: bool) returns (error: bool, affected: nat)
      modifies this`signals
      ensures error == fails
      ensures signals == if fails then old(signals) else ResolveIfPending(old(signals), id, result)
      ensures affected == if !fails && id in old(signals) && old(signals)[id].status == Pending then 1 else 0
    {
      error := fails;
      affected := 0;
      if !fails {
        if id in signals && signals[id].status == Pending {
          affected := 1;
        }
        signals := ResolveIfPending(signals, id, result);
      }
    }

    method InsertSignal(row: NewSignal, fails: bool) returns (error: bool)
      modifies this`signalInserts
      ensures error == fails
      ensures signalInserts == if fails then old(signalInserts) else old(signalInserts) + [row]
    {
      error := fails;
      if !fails {
        signalInserts := signalInserts + [row];
      }
    }

    /** `insert(row).select().single()`; `newId` is the id the store assigns.
        The inserted row is returned. */
    method InsertCommunity(row: NewCommunity, newId: string, fails: bool) returns (created: Option<Community>)
      modifies this`communities
      ensures created.None? <==> fails || !FitsPriceColumn(row.price)
      ensures created.Some? ==>
                created.value == Community(newId, row.ownerId, row.name, Some(row.description),
                                           row.status, ColumnPrice(row.price))
      ensures communities == if created.None? then old(communities) else old(communities)[newId := created.value]
    {
      created := None;
      if !fails && FitsPriceColumn(row.price) {
        var c := Community(newId, row.ownerId, row.name, Some(row.description), row.status, ColumnPrice(row.price));
        communities := communities[newId := c];
        created := Some(c);
      }
    }

    /** `update(u).eq("id", id)`: matching no row is not an error. */
    method UpdateCommunity(id: string, u: CommunityUpdate, fails: bool) returns (error: bool)
      modifies this`communities
      ensures error == (fails || !u.Fits())
      ensures communities == if error || id !in old(communities) then old(communities)
                             else old(communities)[id := ApplyUpdate(old(communities)[id], u)]
    {
      error := fails || !u.Fits();
      if !error && id in communities {
        communities := communities[id := ApplyUpdate(communities[id], u)];
      }
    }

    /** `delete().eq("community_id", cid)` on community_markets. */
    method DeleteMarkets(cid: string, fails: bool) returns (error: bool)
      modifies this`marketRows
      ensures error == fails
      ensures marketRows == if fails then old(marketRows) else Keep(old(marketRows), NotOf(cid))
    {
      error := fails;
      if !fails {
        marketRows := Keep(marketRows, NotOf(cid));
      }
    }

    method InsertMarkets(rows: seq<MarketRow>, fails: bool) returns (error: bool)
      modifies this`marketRows
      ensures error == fails
      ensures marketRows == if fails then old(marketRows) else old(marketRows) + rows
    {
      error := fails;
      if !fails {
        marketRows := marketRows + rows;
      }
    }
  }
}
