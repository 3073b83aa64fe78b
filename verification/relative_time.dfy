/** `formatDate` of the post card and of the comments dialog (the two are the same code):
    how long ago something happened, as "hace N min", "hace Nh" or "hace Nd". Times are
    milliseconds; the difference is floored as `Math.floor` does, which for a positive
    divisor is Dafny's integer division. */
module RelativeTime {
  import opened Common

  const MsPerMinute: int := 60000
  const MsPerHour: int := 3600000
  const MsPerDay: int := 86400000

  /** The age of an item in the one unit it is shown in. */
  datatype Age = Minutes(count: int) | Hours(count: int) | Days(count: int)

  /** The bucket of an elapsed time: under an hour in minutes, under a day in hours, and
      whole days beyond. A negative difference (a creation time ahead of the reading
      clock) lands in minutes, with a negative count. */
  function AgeOf(elapsed: int): (a: Age)
    ensures a.Minutes? <==> elapsed < MsPerHour
    ensures a.Hours? <==> MsPerHour <= elapsed < MsPerDay
    ensures a.Days? <==> MsPerDay <= elapsed
    ensures a.Minutes? ==> a.count * MsPerMinute <= elapsed < (a.count + 1) * MsPerMinute
    ensures a.Minutes? && 0 <= elapsed ==> 0 <= a.count < 60
    ensures a.Minutes? && elapsed < 0 ==> a.count < 0
    ensures a.Hours? ==> 1 <= a.count < 24 && a.count * MsPerHour <= elapsed < (a.count + 1) * MsPerHour
    ensures a.Days? ==> 1 <= a.count && a.count * MsPerDay <= elapsed < (a.count + 1) * MsPerDay
  {
    var hours := elapsed / MsPerHour;
    if hours < 1 then Minutes(elapsed / MsPerMinute)
    else if hours < 24 then Hours(hours)
    else DaysOf(elapsed, hours)
  }

  /** `Math.floor(diffInHours / 24)`: whole days, the same as dividing the milliseconds by
      the length of a day. */
  function DaysOf(elapsed: int, hours: int): (a: Age)
    requires hours == elapsed / MsPerHour && hours >= 24
    ensures a.Days? && a.count == elapsed / MsPerDay
    ensures 1 <= a.count && a.count * MsPerDay <= elapsed < (a.count + 1) * MsPerDay
  {
    var days := hours / 24;
    assert 24 * days <= hours < 24 * days + 24;
    assert hours * MsPerHour <= elapsed < (hours + 1) * MsPerHour;
    assert days * MsPerDay <= hours * MsPerHour;
    assert (hours + 1) * MsPerHour <= (days + 1) * MsPerDay;
    Days(days)
  }

  function UnitText(a: Age): string
  {
    match a
    case Minutes(_) => " min"
    case Hours(_) => "h"
    case Days(_) => "d"
  }

  /** The text shown for an age: "hace ", then the count's numeral, then the unit. */
  function Render(a: Age): (s: string)
    ensures var n := IntToString(a.count);
      && |s| == 5 + |n| + |UnitText(a)|
      && s[..5] == "hace " && s[5..5 + |n|] == n && s[5 + |n|..] == UnitText(a)
  {
    "hace " + IntToString(a.count) + UnitText(a)
  }

  /** The label of an item created at `createdAt`, read at `now`. */
  function FormatDate(now: int, createdAt: int): (s: string)
    ensures |s| > 5 && s[..5] == "hace "
    ensures now - createdAt < MsPerHour ==>
      s == "hace " + IntToString((now - createdAt) / MsPerMinute) + " min"
    ensures MsPerHour <= now - createdAt < MsPerDay ==>
      s == "hace " + IntToString((now - createdAt) / MsPerHour) + "h"
    ensures MsPerDay <= now - createdAt ==>
      s == "hace " + IntToString((now - createdAt) / MsPerDay) + "d"
  {
    Render(AgeOf(now - createdAt))
  }

  /** Different ages never share a label: the last character names the unit and the
      numeral before it names the count. */
  lemma RenderInjective(a: Age, b: Age)
    requires Render(a) == Render(b)
    ensures a == b
  {
    var s := Render(a);
    var na := IntToString(a.count);
    var nb := IntToString(b.count);
    assert s[|s| - 1] == UnitText(a)[|UnitText(a)| - 1];
    assert s[|s| - 1] == UnitText(b)[|UnitText(b)| - 1];
    assert UnitText(a) == UnitText(b);
    var u := UnitText(a);
    assert s[5..|s| - |u|] == na;
    assert s[5..|s| - |u|] == nb;
    IntToStringInjective(a.count, b.count);
  }
}
