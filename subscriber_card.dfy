/** One subscription on the owner's subscribers screen: the subscriber's
    name, the subscription dates and the days it has left. */
module SubscriberCard {
  import opened Types
  import Arith
  import Text

  const DayMs := 86400000

  /** getDaysRemaining: `Math.ceil((end - now) / 86400000)` in whole days. */
  function DaysRemaining(endDate: int, now: int): (days: int)
    ensures (days - 1) * DayMs < endDate - now <= days * DayMs
  {
    Arith.CeilDiv(endDate - now, DayMs)
  }

  /** Some time is left exactly when the end lies in the future. */
  lemma DaysLeftIffNotEnded(endDate: int, now: int)
    ensures DaysRemaining(endDate, now) > 0 <==> endDate > now
  {
    var d := DaysRemaining(endDate, now);
    if d > 0 {
      Arith.MulAtLeast(d, DayMs);
    } else if d < 0 {
      Arith.MulAtLeast(-d, DayMs);
    }
  }

  /** `daysLeft <= 7 && daysLeft > 0`. */
  predicate IsExpiringSoon(daysLeft: int) {
    0 < daysLeft <= 7
  }

  /** A subscription is expiring soon exactly when it ends within the next
      seven days (and has not ended yet). */
  lemma ExpiringSoonWindow(endDate: int, now: int)
    ensures IsExpiringSoon(DaysRemaining(endDate, now)) <==> now < endDate <= now + 7 * DayMs
  {
    var d := DaysRemaining(endDate, now);
    DaysLeftIffNotEnded(endDate, now);
    if d > 7 {
      Arith.MulAtLeast(1, 7 * DayMs);
      assert (d - 1) * DayMs >= 7 * DayMs by {
        Arith.MulAtLeast(d - 8 + 1, DayMs);
        assert (d - 1) * DayMs == (d - 8) * DayMs + 7 * DayMs;
      }
    } else if d > 0 {
      assert d * DayMs <= 7 * DayMs by {
        if d < 7 {
          Arith.MulAtLeast(7 - d, DayMs);
          assert (7 - d) * DayMs == 7 * DayMs - d * DayMs;
        }
      }
    }
  }

  /** The end-date caption. */
  datatype EndCaption = Renews | Ended

  function EndCaptionOf(daysLeft: int): (c: EndCaption)
    ensures c == Renews <==> daysLeft > 0
  {
    if daysLeft > 0 then Renews else Ended
  }

  /** The "N day(s) remaining" row, drawn only while days are left. */
  datatype RemainingRow = NoRow | Remaining(days: int, plural: bool, warning: bool)

  function RemainingRowOf(daysLeft: int): (r: RemainingRow)
    ensures r.Remaining? <==> daysLeft > 0
    ensures r.Remaining? ==> r.days == daysLeft && (r.plural <==> daysLeft != 1)
    ensures r.Remaining? ==> (r.warning <==> IsExpiringSoon(daysLeft))
  {
    if daysLeft > 0 then Remaining(daysLeft, daysLeft != 1, IsExpiringSoon(daysLeft)) else NoRow
  }

  function NamePart(part: Option<string>): string {
    if part.Some? then part.value else ""
  }

  /** `${first_name ?? ""} ${last_name ?? ""}`.trim() || "Unknown User". */
  function DisplayName(user: SubscriberUser): (name: string)
    ensures name == "Unknown User" || (name != [] && !Text.IsSpace(name[0]) && !Text.IsSpace(name[|name| - 1]))
    ensures Text.AllSpace(NamePart(user.firstName)) && Text.AllSpace(NamePart(user.lastName)) ==> name == "Unknown User"
    ensures !(Text.AllSpace(NamePart(user.firstName)) && Text.AllSpace(NamePart(user.lastName))) ==>
              name == Text.Trim(NamePart(user.firstName) + " " + NamePart(user.lastName))
  {
    var full := Text.Trim(NamePart(user.firstName) + " " + NamePart(user.lastName));
    Text.TrimShape(NamePart(user.firstName) + " " + NamePart(user.lastName));
    JoinedNameBlankIffPartsBlank(NamePart(user.firstName), NamePart(user.lastName));
    if full == [] then "Unknown User" else full
  }

  /** The joined name trims to "" exactly when both parts are blank. */
  lemma JoinedNameBlankIffPartsBlank(a: string, b: string)
    ensures Text.Trim(a + " " + b) == [] <==> Text.AllSpace(a) && Text.AllSpace(b)
  {
    var s := a + " " + b;
    Text.TrimEmptyIffBlank(s);
    if Text.AllSpace(s) {
      forall i | 0 <= i < |a| ensures Text.IsSpace(a[i]) {
        assert s[i] == a[i];
      }
      forall i | 0 <= i < |b| ensures Text.IsSpace(b[i]) {
        assert s[|a| + 1 + i] == b[i];
      }
    }
    if Text.AllSpace(a) && Text.AllSpace(b) {
      forall i | 0 <= i < |s| ensures Text.IsSpace(s[i]) {
        if i < |a| {
          assert s[i] == a[i];
        } else if i > |a| {
          assert s[i] == b[i - |a| - 1];
        }
      }
    }
  }

  /** The card shows "Unknown User" as the fallback exactly when both names
      are missing or blank, and otherwise the joined name trimmed, which
      starts with the first name when that is not blank. */
  lemma UnknownUserIffBlankNames(user: SubscriberUser)
    ensures Text.AllSpace(NamePart(user.firstName)) && Text.AllSpace(NamePart(user.lastName))
            <==> Text.Trim(NamePart(user.firstName) + " " + NamePart(user.lastName)) == []
    ensures Text.AllSpace(NamePart(user.firstName)) && Text.AllSpace(NamePart(user.lastName))
            ==> DisplayName(user) == "Unknown User"
    ensures !(Text.AllSpace(NamePart(user.firstName)) && Text.AllSpace(NamePart(user.lastName)))
            ==> DisplayName(user) != [] && DisplayName(user) == Text.Trim(NamePart(user.firstName) + " " + NamePart(user.lastName))
  {
    JoinedNameBlankIffPartsBlank(NamePart(user.firstName), NamePart(user.lastName));
  }

  /** A subscriber with only a first name shows it without the joining
      space, and a first name of one ideographic space counts as blank. */
  lemma DisplayNameExamples(email: string)
    ensures DisplayName(SubscriberUser(Some("Ann"), None, email)) == "Ann"
    ensures DisplayName(SubscriberUser(Some("\U{3000}"), None, email)) == "Unknown User"
  {
    assert NamePart(Some("Ann")) + " " + NamePart(None) == "Ann ";
    assert Text.LeadingSpaces("Ann ") == 0;
    assert "Ann "[0..] == "Ann ";
    assert Text.TrailingSpaces("Ann ") == 1 by {
      assert "Ann "[..3] == "Ann";
      assert Text.TrailingSpaces("Ann") == 0;
    }
    assert Text.Trim("Ann ") == "Ann" by {
      assert "Ann "[..3] == "Ann";
    }
    JoinedNameBlankIffPartsBlank("\U{3000}", "");
  }

  /** The left border: green for a stored "active" status. */
  datatype Border = SuccessBorder | PlainBorder

  function BorderOf(status: SubscriptionStatus): (b: Border)
    ensures b == SuccessBorder <==> status == Active
  {
    if status == Active then SuccessBorder else PlainBorder
  }

  /** The border follows the stored status and the caption follows the
      dates: a row still marked active after its end date is drawn green
      and captioned "Ended". */
  lemma StoredStatusAndDatesCanDisagree(s: Subscriber, now: int)
    requires s.status == Active && s.endDate <= now
    ensures BorderOf(s.status) == SuccessBorder && EndCaptionOf(DaysRemaining(s.endDate, now)) == Ended
  {
    DaysLeftIffNotEnded(s.endDate, now);
  }
}
