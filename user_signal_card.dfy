/** The card the feed shows for a signal the user may read in full: a free
    signal, or a VIP signal of a community the user subscribes to. */
module UserSignalCard {
  import opened Types
  import opened SignalDisplay
  import Text

  /** The price block: the entry always, take profit and stop loss when set. */
  datatype PriceLevels = PriceLevels(entry: real, takeProfit: Option<real>, stopLoss: Option<real>)

  datatype View = View(
    border: Tone,
    asset: string,
    direction: string,
    directionTone: DirectionTone,
    communityName: Option<string>,
    time: TimeAgo,
    typeBadge: TypeBadge,
    badge: BadgeConfig,
    statusCaption: string,
    levels: PriceLevels)

  /** `{value && (...)}`: a row for a value that is neither null nor 0. */
  function ShownLevel(value: Option<real>): (r: Option<real>)
    ensures r.Some? <==> value.Some? && value.value != 0.0
    ensures r.Some? ==> r == value
  {
    if value.Some? && value.value != 0.0 then value else None
  }

  function Render(signal: Signal, communityName: Option<string>, now: int): (v: View)
    ensures v.typeBadge == VipBadge <==> signal.signalType == Vip
    ensures v.levels.entry == signal.entryPrice
    ensures v.levels.takeProfit.Some? <==> signal.takeProfit.Some? && signal.takeProfit.value != 0.0
    ensures v.levels.stopLoss.Some? <==> signal.stopLoss.Some? && signal.stopLoss.value != 0.0
    ensures v.levels == PriceLevels(signal.entryPrice, ShownLevel(signal.takeProfit), ShownLevel(signal.stopLoss))
    ensures v.border == StatusTone(signal.status) && v.badge == StatusBadgeConfig(signal.status)
    ensures v.asset == Text.Upper(signal.asset) && |v.asset| == |signal.asset|
    ensures v.direction == DirectionCaption(signal.direction) && v.directionTone == DirectionToneOf(signal.direction)
    ensures v.statusCaption == StatusCaption(signal.status)
    ensures v.communityName == communityName && v.time == RelativeTime(now - signal.createdAt)
  {
    View(StatusTone(signal.status), Text.Upper(signal.asset), DirectionCaption(signal.direction),
         DirectionToneOf(signal.direction), communityName, RelativeTime(now - signal.createdAt),
         if signal.signalType == Vip then VipBadge else FreeBadge,
         StatusBadgeConfig(signal.status), StatusCaption(signal.status),
         PriceLevels(signal.entryPrice, ShownLevel(signal.takeProfit), ShownLevel(signal.stopLoss)))
  }

  /** The full card shows what the locked card hides: two signals with the
      same card have the same type, status, entry and non-zero levels. */
  lemma ShowsPriceLevels(a: Signal, b: Signal, communityName: Option<string>, now: int)
    requires Render(a, communityName, now) == Render(b, communityName, now)
    ensures a.signalType == b.signalType && a.status == b.status && a.entryPrice == b.entryPrice
    ensures ShownLevel(a.takeProfit) == ShownLevel(b.takeProfit)
    ensures ShownLevel(a.stopLoss) == ShownLevel(b.stopLoss)
  {
    BadgeConfigInjective(a.status, b.status);
  }
}
