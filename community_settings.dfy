/** The owner's community settings form: name, description, price and the
    markets traded, saved as a partial update of the community row and a
    delete-then-insert of its market rows. */
module CommunitySettings {
  import opened Types
  import opened Seqs
  import opened Numbers
  import Text
  import Store
  import MarketPicker

  /** `data.description ?? ""`. */
  function DescriptionField(d: Option<string>): (s: string)
    ensures d.Some? ==> s == d.value
    ensures d.None? ==> s == ""
  {
    if d.Some? then d.value else ""
  }

  /** `String(data.subscription_price ?? "")`. */
  function PriceField(p: Option<int>): (s: string)
    ensures p.None? ==> s == ""
    ensures p.Some? ==> s == DecimalText(p.value)
  {
    if p.Some? then DecimalText(p.value) else ""
  }

  /** The fields handleSave sends: each one that differs from the stored row.
      `Number(text) !== price` holds for NaN and for a null stored price. */
  function UpdatesFor(name: string, description: string, priceText: string, c: Community): (u: Store.CommunityUpdate)
    ensures u.name.Some? <==> name != c.name
    ensures u.name.Some? ==> u.name.value == name
    ensures u.description.Some? <==> description != DescriptionField(c.description)
    ensures u.description.Some? ==> u.description.value == description
    ensures u.price.None? <==> ParseNumber(priceText).Some? && c.subscriptionPrice.Some?
                               && ParseNumber(priceText).value == c.subscriptionPrice.value as real
    ensures u.price.Some? ==> u.price.value == ParseNumber(priceText)
  {
    var n := ParseNumber(priceText);
    Store.CommunityUpdate(
      if name != c.name then Some(name) else None,
      if description != DescriptionField(c.description) then Some(description) else None,
      if n.Some? && c.subscriptionPrice.Some? && n.value == c.subscriptionPrice.value as real then None else Some(n))
  }

  /** The form as loaded sends nothing, provided the community has a price. */
  lemma UntouchedFormHasNoUpdates(c: Community)
    requires c.subscriptionPrice.Some?
    ensures UpdatesFor(c.name, DescriptionField(c.description), PriceField(c.subscriptionPrice), c).IsEmpty()
  {
    ParseDecimalText(c.subscriptionPrice.value);
  }

  /** With a null stored price the price is always sent, and the untouched
      form sets it to 0. */
  lemma NullPriceIsAlwaysSent(c: Community, name: string, description: string, priceText: string)
    requires c.subscriptionPrice.None?
    ensures UpdatesFor(name, description, priceText, c).price.Some?
    ensures UpdatesFor(c.name, DescriptionField(c.description), PriceField(c.subscriptionPrice), c)
            == Store.CommunityUpdate(None, None, Some(Some(0.0)))
  {
    assert Text.Trim("") == [];
  }

  /** After a successful update the row agrees with the form, so saving the
      same form again sends nothing. */
  lemma SavedRowMatchesForm(c: Community, name: string, description: string, priceText: string)
    requires ParseNumber(priceText).Some? && UpdatesFor(name, description, priceText, c).Fits()
    ensures var r := Store.ApplyUpdate(c, UpdatesFor(name, description, priceText, c));
            r.name == name && DescriptionField(r.description) == description
            && r.subscriptionPrice.Some? && r.subscriptionPrice.value as real == ParseNumber(priceText).value
            && UpdatesFor(name, description, priceText, r).IsEmpty()
  {
  }

  /** What handleSave ends with. */
  datatype SaveOutcome = NoCommunity | NothingToUpdate | UpdateFailed | MarketsFailed | Saved

  class Form {
    var community: Option<Community>
    var name: string
    var description: string
    var priceText: string
    var loading: bool
    var saving: bool
    var selectedMarkets: seq<Market>
    var initialMarkets: seq<Market>

    constructor ()
      ensures community.None? && name == "" && description == "" && priceText == ""
      ensures loading && !saving && selectedMarkets == [] && initialMarkets == []
    {
      community := None;
      name := "";
      description := "";
      priceText := "";
      loading := true;
      saving := false;
      selectedMarkets := [];
      initialMarkets := [];
    }

    /** fetchCommunity with the owner's community row and its market rows as
        parameters; `None` stands for an error. Missing market rows load as
        no markets. */
    method Fetch(signedIn: bool, communityResp: Option<Community>, marketsResp: Option<seq<Market>>)
      modifies this
      ensures !signedIn ==> community == old(community) && loading == old(loading)
                            && name == old(name) && description == old(description)
                            && priceText == old(priceText) && selectedMarkets == old(selectedMarkets)
                            && initialMarkets == old(initialMarkets)
      ensures signedIn ==> !loading
      ensures signedIn && communityResp.None? ==>
                community == old(community) && name == old(name) && description == old(description)
                && priceText == old(priceText) && selectedMarkets == old(selectedMarkets)
                && initialMarkets == old(initialMarkets)
      ensures signedIn && communityResp.Some? ==>
                var c := communityResp.value;
                community == communityResp && name == c.name
                && description == DescriptionField(c.description)
                && priceText == PriceField(c.subscriptionPrice)
                && selectedMarkets == initialMarkets
                && selectedMarkets == (if marketsResp.Some? then marketsResp.value else [])
      ensures saving == old(saving)
    {
      if !signedIn {
        return;
      }
      loading := true;
      if communityResp.None? {
        loading := false;
        return;
      }
      var markets := if marketsResp.Some? then marketsResp.value else [];
      selectedMarkets := markets;
      initialMarkets := markets;
      var c := communityResp.value;
      community := communityResp;
      name := c.name;
      description := DescriptionField(c.description);
      priceText := PriceField(c.subscriptionPrice);
      loading := false;
    }

    method SetName(s: string)
      modifies this`name
      ensures name == s
    {
      name := s;
    }

    method SetDescription(s: string)
      modifies this`description
      ensures description == s
    {
      description := s;
    }

    method SetPrice(s: string)
      modifies this`priceText
      ensures priceText == s
    {
      priceText := s;
    }

    /** A chip press. */
    method ToggleMarket(m: Market)
      modifies this`selectedMarkets
      ensures selectedMarkets == MarketPicker.Toggle(old(selectedMarkets), m)
    {
      selectedMarkets := MarketPicker.Toggle(selectedMarkets, m);
    }

    /** `marketsChanged`. */
    predicate MarketsChanged()
      reads this
    {
      MarketPicker.MarketsChanged(selectedMarkets, initialMarkets)
    }

    /** handleSave. The community row is updated first (with an empty update
        when only the markets changed); then, if the markets changed, the old
        market rows are deleted and the selection is inserted. A failed insert
        leaves the deletion in place. */
    method HandleSave(db: Store.Database, updateFails: bool, deleteFails: bool, insertFails: bool)
      returns (outcome: SaveOutcome)
      modifies this`saving, db`communities, db`marketRows
      ensures community.None? ==> outcome == NoCommunity
      ensures outcome == NoCommunity || outcome == NothingToUpdate ==>
                db.communities == old(db.communities) && db.marketRows == old(db.marketRows) && saving == old(saving)
      ensures community.Some? ==>
                var id := community.value.id;
                var u := UpdatesFor(name, description, priceText, community.value);
                var updateError := updateFails || !u.Fits();
                (u.IsEmpty() && !MarketsChanged() ==> outcome == NothingToUpdate)
                && (!(u.IsEmpty() && !MarketsChanged()) ==>
                      !saving
                      && db.communities == (if updateError || id !in old(db.communities) then old(db.communities)
                                            else old(db.communities)[id := Store.ApplyUpdate(old(db.communities)[id], u)])
                      && (updateError ==> outcome == UpdateFailed && db.marketRows == old(db.marketRows))
                      && (!updateError && !MarketsChanged() ==> outcome == Saved && db.marketRows == old(db.marketRows))
                      && (!updateError && MarketsChanged() && deleteFails ==>
                            outcome == MarketsFailed && db.marketRows == old(db.marketRows))
                      && (!updateError && MarketsChanged() && !deleteFails ==>
                            var kept := Keep(old(db.marketRows), Store.NotOf(id));
                            var inserted := |selectedMarkets| > 0 && !insertFails;
                            outcome == (if |selectedMarkets| > 0 && insertFails then MarketsFailed else Saved)
                            && db.marketRows == (if inserted then kept + Store.RowsFor(id, selectedMarkets) else kept)
                            && Store.MarketsOf(db.marketRows, id) == (if inserted then selectedMarkets else [])))
    {
      if community.None? {
        return NoCommunity;
      }
      var c := community.value;
      var updates := UpdatesFor(name, description, priceText, c);
      if updates.IsEmpty() && !MarketsChanged() {
        return NothingToUpdate;
      }
      saving := true;
      var error := db.UpdateCommunity(c.id, updates, updateFails);
      saving := false;
      if error {
        return UpdateFailed;
      }
      if MarketsChanged() {
        ghost var before := db.marketRows;
        var deleteError := db.DeleteMarkets(c.id, deleteFails);
        if deleteError {
          saving := false;
          return MarketsFailed;
        }
        Store.ReplaceMarkets(before, c.id, selectedMarkets, c.id);
        Store.MarketsOfAfterDelete(before, c.id, c.id);
        if |selectedMarkets| > 0 {
          var insertError := db.InsertMarkets(Store.RowsFor(c.id, selectedMarkets), insertFails);
          if insertError {
            saving := false;
            return MarketsFailed;
          }
        }
      }
      outcome := Saved;
    }
  }

  /** A failed insert after the deletion leaves the community with no
      markets at all, and every other community's markets as they were. */
  lemma FailedInsertLeavesNoMarkets(rows: seq<MarketRow>, id: string, other: string)
    ensures Store.MarketsOf(Keep(rows, Store.NotOf(id)), id) == []
    ensures other != id ==> Store.MarketsOf(Keep(rows, Store.NotOf(id)), other) == Store.MarketsOf(rows, other)
  {
    Store.MarketsOfAfterDelete(rows, id, id);
    Store.MarketsOfAfterDelete(rows, id, other);
  }
}
