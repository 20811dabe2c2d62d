/** The card the feed shows for a VIP signal of a community the user does not
    subscribe to: the signal's identity and status, never its price levels. */
module LockedSignalCard {
  import opened Types
  import opened SignalDisplay
  import Text

  datatype View = View(
    border: Tone,
    asset: string,
    direction: string,
    directionTone: DirectionTone,
    communityName: Option<string>,
    typeBadge: TypeBadge,
    badge: BadgeConfig,
    statusCaption: string,
    lockMessage: string,
    time: TimeAgo)

  /** The card for `signal`, joined with its community's name (absent when the
      join returned nothing), at wall-clock time `now`. */
  function Render(signal: Signal, communityName: Option<string>, now: int): (v: View)
    ensures v.typeBadge == VipBadge
    ensures v.lockMessage == "Subscribe to unlock"
    ensures v.border == StatusTone(signal.status) && v.badge == StatusBadgeConfig(signal.status)
    ensures v.asset == Text.Upper(signal.asset) && |v.asset| == |signal.asset|
    ensures v.direction == DirectionCaption(signal.direction) && v.statusCaption == StatusCaption(signal.status)
    ensures v.communityName == communityName && v.time == RelativeTime(now - signal.createdAt)
  {
    View(StatusTone(signal.status), Text.Upper(signal.asset), DirectionCaption(signal.direction),
         DirectionToneOf(signal.direction), communityName, VipBadge,
         StatusBadgeConfig(signal.status), StatusCaption(signal.status),
         "Subscribe to unlock", RelativeTime(now - signal.createdAt))
  }

  /** The locked card is the same for any two signals that differ only in what
      a subscription pays for: entry price, take profit, stop loss (and in the
      type, id and market, which it does not show either). */
  lemma HidesPriceLevels(a: Signal, b: Signal, communityName: Option<string>, now: int)
    requires a.asset == b.asset && a.direction == b.direction
    requires a.status == b.status && a.createdAt == b.createdAt
    ensures Render(a, communityName, now) == Render(b, communityName, now)
  {
  }

  /** The locked card still tells the reader the signal's status. */
  lemma ShowsStatus(a: Signal, b: Signal, communityName: Option<string>, now: int)
    requires Render(a, communityName, now) == Render(b, communityName, now)
    ensures a.status == b.status && a.direction == b.direction
  {
    BadgeConfigInjective(a.status, b.status);
  }
}
