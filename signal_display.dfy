/** Presentation rules shared by the three signal cards (SignalCard,
    LockedSignalCard, UserSignalCard): the colour a status is drawn in, the
    status badge, and the relative time of a signal's creation. */
module SignalDisplay {
  import opened Types
  import Arith
  import Text

  /** The theme colours a status can be drawn in. */
  datatype Tone = Success | Danger | Border

  /** getBorderColor / getStatusColor: win is green, loss red, pending neutral. */
  function StatusTone(status: SignalStatus): (t: Tone)
    ensures t == Success <==> status == Win
    ensures t == Danger <==> status == Loss
    ensures t == Border <==> status == Pending
  {
    match status
    case Win => Success
    case Loss => Danger
    case Pending => Border
  }

  /** The card border tells the reader the exact status. */
  lemma ToneDeterminesStatus(a: SignalStatus, b: SignalStatus)
    requires StatusTone(a) == StatusTone(b)
    ensures a == b
  {
  }

  /** The text colours of the status badge. */
  datatype BadgeColour = SuccessText | DangerText | SecondaryText

  datatype Icon = TimeOutline | CheckmarkCircle | CloseCircle

  /** One entry of statusConfig: tinted background (colour and alpha suffix),
      text colour and icon. */
  datatype BadgeConfig = BadgeConfig(background: Tone, alpha: string, text: BadgeColour, icon: Icon)

  /** statusConfig[signal.status] of LockedSignalCard and UserSignalCard. */
  function StatusBadgeConfig(status: SignalStatus): (c: BadgeConfig)
    ensures c.background == StatusTone(status)
    ensures c.alpha == (if status == Pending then "30" else "15")
    ensures c.icon == CheckmarkCircle <==> status == Win
    ensures c.icon == CloseCircle <==> status == Loss
    ensures c.icon == TimeOutline <==> status == Pending
  {
    match status
    case Pending => BadgeConfig(Border, "30", SecondaryText, TimeOutline)
    case Win => BadgeConfig(Success, "15", SuccessText, CheckmarkCircle)
    case Loss => BadgeConfig(Danger, "15", DangerText, CloseCircle)
  }

  /** Every status has its own badge. */
  lemma BadgeConfigInjective(a: SignalStatus, b: SignalStatus)
    requires StatusBadgeConfig(a) == StatusBadgeConfig(b)
    ensures a == b
  {
  }

  /** How long ago a signal was created, as the cards print it. OnDate stands
      for the locale date string of the creation time. */
  datatype TimeAgo = MinutesAgo(minutes: int) | HoursAgo(hours: int) | DaysAgo(days: int) | OnDate

  const MinuteMs := 60000
  const HourMs := 3600000
  const DayMs := 86400000
  const WeekMs := 604800000

  /** formatDate / formatTime: whole minutes, hours and days are each floored
      from the one before; diffMs is now minus the creation time and may be
      negative under clock skew, which prints as negative minutes. */
  function RelativeTime(diffMs: int): (t: TimeAgo)
    ensures t.MinutesAgo? <==> diffMs < HourMs
    ensures t.HoursAgo? <==> HourMs <= diffMs < DayMs
    ensures t.DaysAgo? <==> DayMs <= diffMs < WeekMs
    ensures t.OnDate? <==> WeekMs <= diffMs
    ensures t.MinutesAgo? ==> t.minutes == diffMs / MinuteMs && t.minutes < 60
    ensures t.HoursAgo? ==> t.hours == diffMs / HourMs && 1 <= t.hours < 24
    ensures t.DaysAgo? ==> t.days == diffMs / DayMs && 1 <= t.days < 7
  {
    var mins := diffMs / MinuteMs;
    var hours := mins / 60;
    var days := hours / 24;
    RelativeTimeFacts(diffMs);
    if mins < 60 then MinutesAgo(mins)
    else if hours < 24 then HoursAgo(hours)
    else if days < 7 then DaysAgo(days)
    else OnDate
  }

  lemma RelativeTimeFacts(diffMs: int)
    ensures (diffMs / MinuteMs) / 60 == diffMs / HourMs
    ensures ((diffMs / MinuteMs) / 60) / 24 == diffMs / DayMs
    ensures diffMs / MinuteMs < 60 <==> diffMs < HourMs
    ensures diffMs / HourMs < 1 <==> diffMs < HourMs
    ensures diffMs / HourMs < 24 <==> diffMs < DayMs
    ensures diffMs / DayMs < 1 <==> diffMs < DayMs
    ensures diffMs / DayMs < 7 <==> diffMs < WeekMs
  {
    Arith.DivDiv(diffMs, MinuteMs, 60);
    Arith.DivDiv(diffMs / MinuteMs, 60, 24);
    Arith.DivDiv(diffMs, HourMs, 24);
    Arith.DivLess(diffMs, MinuteMs, 60);
    Arith.DivLess(diffMs, HourMs, 1);
    Arith.DivLess(diffMs, HourMs, 24);
    Arith.DivLess(diffMs, DayMs, 1);
    Arith.DivLess(diffMs, DayMs, 7);
  }

  /** An older signal never shows a smaller count in the same unit. */
  lemma RelativeTimeMonotone(d1: int, d2: int)
    requires d1 <= d2
    ensures RelativeTime(d1).MinutesAgo? && RelativeTime(d2).MinutesAgo? ==> RelativeTime(d1).minutes <= RelativeTime(d2).minutes
    ensures RelativeTime(d1).HoursAgo? && RelativeTime(d2).HoursAgo? ==> RelativeTime(d1).hours <= RelativeTime(d2).hours
    ensures RelativeTime(d1).DaysAgo? && RelativeTime(d2).DaysAgo? ==> RelativeTime(d1).days <= RelativeTime(d2).days
  {
    DivMonotone(d1, d2, MinuteMs);
    DivMonotone(d1, d2, HourMs);
    DivMonotone(d1, d2, DayMs);
  }

  lemma DivMonotone(a: int, b: int, d: int)
    requires a <= b && d > 0
    ensures a / d <= b / d
  {
    if a / d > b / d {
      Arith.DivLess(a, d, b / d + 1);
      Arith.DivLess(b, d, b / d + 1);
    }
  }

  /** The stored text of a status (types/signal.ts). */
  function StatusName(status: SignalStatus): string {
    match status
    case Pending => "pending"
    case Win => "win"
    case Loss => "loss"
  }

  function DirectionName(d: Direction): string {
    match d
    case Buy => "buy"
    case Sell => "sell"
  }

  /** `status.toUpperCase()`, the badge caption. */
  function StatusCaption(status: SignalStatus): (c: string)
    ensures c == (match status case Pending => "PENDING" case Win => "WIN" case Loss => "LOSS")
  {
    Text.Upper(StatusName(status))
  }

  /** `direction.toUpperCase()`. */
  function DirectionCaption(d: Direction): (c: string)
    ensures c == (if d == Buy then "BUY" else "SELL")
  {
    Text.Upper(DirectionName(d))
  }

  /** The type chip: a star with "VIP", or a gift with "FREE". */
  datatype TypeBadge = VipBadge | FreeBadge

  /** The buy/sell chip colours. */
  datatype DirectionTone = BuyTone | SellTone

  function DirectionToneOf(d: Direction): DirectionTone {
    if d == Buy then BuyTone else SellTone
  }

  /** SignalCard's getStatusBadge: no badge while pending, otherwise the
      upper-cased status in green or red. */
  datatype ResultBadge = ResultBadge(caption: string, tone: Tone)

  function ResultBadgeOf(status: SignalStatus): (b: Option<ResultBadge>)
    ensures b.None? <==> status == Pending
    ensures b.Some? ==> b.value.tone == StatusTone(status)
    ensures b.Some? ==> b.value.caption == (if status == Win then "WIN" else "LOSS")
  {
    if status == Pending then None
    else Some(ResultBadge(StatusCaption(status), StatusTone(status)))
  }
}
