/** The economic events panel and its countdown (components/EconomicCalendar.tsx). */
module EconomicCalendar {
  import opened Strings

  const MsPerDay: nat := 1000 * 60 * 60 * 24
  const MsPerHour: nat := 1000 * 60 * 60
  const RefreshIntervalMs: nat := 60000

  /** The time left until the next event, or the event is under way. */
  datatype Countdown = Live | Remaining(days: nat, hours: nat)

  /** `diff` milliseconds split into whole days and the whole hours left over. */
  function CountdownOf(diff: int): (c: Countdown)
    ensures c.Live? <==> diff <= 0
    ensures c.Remaining? ==> c.hours < 24
    ensures c.Remaining? ==>
      c.days * MsPerDay + c.hours * MsPerHour <= diff < c.days * MsPerDay + (c.hours + 1) * MsPerHour
  {
    if diff > 0 then Remaining(diff / MsPerDay, (diff % MsPerDay) / MsPerHour) else Live
  }

  /** The split is the only one with fewer than 24 hours: the contract above determines it. */
  lemma CountdownUnique(diff: int, days: nat, hours: nat)
    requires diff > 0 && hours < 24
    requires days * MsPerDay + hours * MsPerHour <= diff < days * MsPerDay + (hours + 1) * MsPerHour
    ensures CountdownOf(diff) == Remaining(days, hours)
  {
    var c := CountdownOf(diff);
    var t1 := days * 24 + hours;
    var t2 := c.days * 24 + c.hours;
    assert t1 * MsPerHour <= diff < (t1 + 1) * MsPerHour;
    assert t2 * MsPerHour <= diff < (t2 + 1) * MsPerHour;
    assert t1 == t2;
  }

  /** The text shown: "LIVE", or days and hours as `${days}d ${hours}h`. */
  function CountdownText(c: Countdown): (t: string)
    ensures c.Live? ==> t == "LIVE"
    ensures c.Remaining? ==> |t| >= 4 && '0' <= t[0] <= '9' && t[|t| - 1] == 'h'
    ensures c.Remaining? ==>
      exists a: string, b: string :: t == a + "d " + b + "h" &&
        IsDigits(a) && DigitsValue(a) == c.days && IsDigits(b) && DigitsValue(b) == c.hours
  {
    match c
    case Live => "LIVE"
    case Remaining(d, h) =>
      var a, b := NatToString(d), NatToString(h);
      NatToStringRoundTrip(d);
      NatToStringRoundTrip(h);
      a + "d " + b + "h"
  }

  /** "LIVE" appears exactly when the event time has been reached. */
  lemma LiveIffReached(diff: int)
    ensures CountdownText(CountdownOf(diff)) == "LIVE" <==> diff <= 0
  {
    var c := CountdownOf(diff);
    if c.Remaining? {
      var t := CountdownText(c);
      assert t[0] == NatToString(c.days)[0];
    }
  }

  /** One day, one hour and a bit reads "1d 1h". */
  lemma CountdownExample()
    ensures CountdownText(CountdownOf(MsPerDay + MsPerHour + 1)) == "1d 1h"
  {
    assert CountdownOf(MsPerDay + MsPerHour + 1) == Remaining(1, 1);
  }

  /** The panel's countdown state. */
  class Calendar {
    var timeUntilNext: string

    constructor ()
      ensures timeUntilNext == ""
    {
      timeUntilNext := "";
    }

    /** `updateCountdown` at `nowMs`, for the next event at `nextEventMs`. */
    method UpdateCountdown(nextEventMs: int, nowMs: int)
      modifies this
      ensures timeUntilNext == CountdownText(CountdownOf(nextEventMs - nowMs))
    {
      var diff := nextEventMs - nowMs;
      if diff > 0 {
        var days := diff / MsPerDay;
        var hours := (diff % MsPerDay) / MsPerHour;
        timeUntilNext := NatToString(days) + "d " + NatToString(hours) + "h";
      } else {
        timeUntilNext := "LIVE";
      }
    }
  }

  datatype Event = Event(date: string, name: string, impact: string)

  const Events: seq<Event> := [
    Event("Dec 6", "NFP", "HIGH"),
    Event("Dec 11", "CPI", "HIGH"),
    Event("Dec 18", "FOMC", "HIGH"),
    Event("Dec 22", "GDP", "MEDIUM"),
    Event("Dec 27", "PCE", "MEDIUM")
  ]

  const HighColor := "text-red-500"
  const MediumColor := "text-yellow-600"
  const OtherColor := "text-gray-500"

  function ImpactColor(impact: string): (c: string)
    ensures c == HighColor <==> impact == "HIGH"
    ensures c == MediumColor <==> impact == "MEDIUM"
    ensures c == OtherColor <==> impact != "HIGH" && impact != "MEDIUM"
  {
    if impact == "HIGH" then HighColor else if impact == "MEDIUM" then MediumColor else OtherColor
  }

  /** Every listed event is drawn red or yellow, never gray. */
  lemma ListedEventsAreColoured()
    ensures forall i :: 0 <= i < |Events| ==> ImpactColor(Events[i].impact) != OtherColor
  {
  }
}
