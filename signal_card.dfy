/** The owner's signal card: it shows one signal of the owner's community
    and, while the signal is pending, offers to mark it as a win or a loss. */
module SignalCard {
  import opened Types
  import opened SignalDisplay
  import Store
  import Text
  import UserSignalCard

  /** The "Mark as Win" / "Mark as Loss" row. */
  datatype Actions = NoActions | ActionButtons(enabled: bool)

  /** `!isResolved && (...)` with `disabled={updating}`. */
  function ActionsFor(status: SignalStatus, updating: bool): (a: Actions)
    ensures a.ActionButtons? <==> status == Pending
    ensures a.ActionButtons? ==> (a.enabled <==> !updating)
  {
    if status != Pending then NoActions else ActionButtons(!updating)
  }

  datatype View = View(
    border: Tone,
    asset: string,
    direction: string,
    market: string,
    time: TimeAgo,
    typeBadge: TypeBadge,
    badge: Option<ResultBadge>,
    levels: UserSignalCard.PriceLevels,
    actions: Actions)

  function MarketName(m: Market): string {
    match m
    case Crypto => "crypto"
    case Forex => "forex"
    case Stocks => "stocks"
  }

  /** The card of `signal` drawn with the card's own `status`, which after a
      resolution may run ahead of the signal it was given. */
  function Render(signal: Signal, status: SignalStatus, updating: bool, now: int): (v: View)
    ensures v.border == StatusTone(status)
    ensures v.badge.None? <==> status == Pending
    ensures v.actions.ActionButtons? <==> status == Pending
    ensures v.levels.entry == signal.entryPrice
    ensures v.badge == ResultBadgeOf(status) && v.actions == ActionsFor(status, updating)
    ensures v.levels == UserSignalCard.PriceLevels(signal.entryPrice, UserSignalCard.ShownLevel(signal.takeProfit),
                                                   UserSignalCard.ShownLevel(signal.stopLoss))
    ensures v.asset == Text.Upper(signal.asset) && v.direction == DirectionCaption(signal.direction)
    ensures v.market == Text.Upper(MarketName(signal.market)) && v.time == RelativeTime(now - signal.createdAt)
    ensures v.typeBadge == VipBadge <==> signal.signalType == Vip
  {
    View(StatusTone(status), Text.Upper(signal.asset), DirectionCaption(signal.direction),
         Text.Upper(MarketName(signal.market)), RelativeTime(now - signal.createdAt),
         if signal.signalType == Vip then VipBadge else FreeBadge,
         ResultBadgeOf(status),
         UserSignalCard.PriceLevels(signal.entryPrice, UserSignalCard.ShownLevel(signal.takeProfit),
                                    UserSignalCard.ShownLevel(signal.stopLoss)),
         ActionsFor(status, updating))
  }

  /** A card that offers the actions shows no result badge, and one that
      shows a badge offers no actions. */
  lemma BadgeAndActionsExclusive(signal: Signal, status: SignalStatus, updating: bool, now: int)
    ensures Render(signal, status, updating, now).badge.Some? <==> Render(signal, status, updating, now).actions.NoActions?
  {
  }

  class Card {
    const signal: Signal
    var status: SignalStatus
    var updating: bool

    constructor (signal: Signal)
      ensures this.signal == signal && status == signal.status && !updating
    {
      this.signal := signal;
      status := signal.status;
      updating := false;
    }

    /** `status !== "pending"`. */
    predicate IsResolved()
      reads this
    {
      status != Pending
    }

    /** The Confirm handler up to its await: the card is busy and already
        shows the chosen result; the status it replaced is kept for rollback. */
    method BeginResolve(result: Outcome) returns (previous: SignalStatus)
      modifies this`status, this`updating
      ensures updating && status == result && previous == old(status)
    {
      updating := true;
      previous := status;
      status := result;
    }

    /** The Confirm handler after the store answered: an error restores the
        previous status; otherwise the parent is told the result, whether or
        not the conditional write matched a row. */
    method FinishResolve(result: Outcome, previous: SignalStatus, error: bool) returns (notified: Option<Outcome>)
      modifies this`status, this`updating
      ensures !updating
      ensures status == if error then previous else old(status)
      ensures notified == if error then None else Some(result)
    {
      if error {
        status := previous;
        notified := None;
      } else {
        notified := Some(result);
      }
      updating := false;
    }

    /** resolveSignal: the confirmation alert, then the optimistic update and
        the conditional write. The buttons exist only while the card shows a
        pending status and are disabled while a write is in flight. */
    method ResolveSignal(result: Outcome, confirmed: bool, db: Store.Database, networkFails: bool)
      returns (notified: Option<Outcome>)
      requires ActionsFor(status, updating) == ActionButtons(true)
      modifies this`status, this`updating, db`signals
      ensures !confirmed ==> status == old(status) && db.signals == old(db.signals) && notified == None
      ensures !updating
      ensures confirmed ==> db.signals == if networkFails then old(db.signals)
                                          else Store.ResolveIfPending(old(db.signals), signal.id, result)
      ensures confirmed ==> status == (if networkFails then Pending else result)
      ensures notified == if confirmed && !networkFails then Some(result) else None
    {
      notified := None;
      if !confirmed {
        return;
      }
      var previous := BeginResolve(result);
      var error, affected := db.UpdateSignalIfPending(signal.id, result, networkFails);
      notified := FinishResolve(result, previous, error);
    }
  }

  /** When another session resolved the signal first, the write matches no
      row and reports no error: this card still shows its own result and
      tells its parent so, while the store keeps the other result. */
  lemma LosingCardShowsItsOwnResult(rows: map<string, Signal>, id: string, mine: Outcome, theirs: Outcome)
    requires mine != theirs && id in rows && rows[id].status == theirs
    ensures Store.ResolveIfPending(rows, id, mine)[id].status == theirs
    ensures StatusTone(mine) != StatusTone(Store.ResolveIfPending(rows, id, mine)[id].status)
  {
    Store.ResolvedRowIsFinal(rows, id, mine);
  }
}
