/** The countdown labels of the village screens: the building card's
    millisecond formatter and the training panel's second formatter. */
module Clock {
  import opened Decimal

  /** A countdown label: which two (or one) fields it shows. */
  datatype Label =
    | HoursMinutes(hours: nat, minutes: nat)
    | MinutesSeconds(minutes: nat, seconds: nat)
    | SecondsOnly(seconds: nat)

  /** The building card's formatter on a millisecond count: whole hours and
      minutes from one hour up, whole minutes and seconds from one minute up,
      else whole seconds; every field is floored, minutes and seconds mod 60. */
  function UpgradeLabel(ms: nat): (l: Label)
    ensures l.HoursMinutes? <==> ms >= 3600000
    ensures l.SecondsOnly? <==> ms < 60000
    ensures l.HoursMinutes? ==> l.minutes < 60 && l.hours * 60 + l.minutes == ms / 60000
    ensures l.MinutesSeconds? ==> 1 <= l.minutes < 60 && l.seconds < 60 && l.minutes * 60 + l.seconds == ms / 1000
    ensures l.SecondsOnly? ==> l.seconds < 60 && l.seconds == ms / 1000
  {
    var seconds := ms / 1000;
    var minutes := seconds / 60;
    var hours := minutes / 60;
    if hours > 0 then HoursMinutes(hours, minutes % 60)
    else if minutes > 0 then MinutesSeconds(minutes, seconds % 60)
    else SecondsOnly(seconds)
  }

  /** The training panel's formatter on a second count: minutes and seconds
      from one minute up (minutes are not wrapped into hours), else seconds. */
  function TrainingLabel(seconds: nat): (l: Label)
    ensures !l.HoursMinutes?
    ensures l.SecondsOnly? <==> seconds < 60
    ensures l.MinutesSeconds? ==> l.minutes >= 1 && l.seconds < 60 && l.minutes * 60 + l.seconds == seconds
    ensures l.SecondsOnly? ==> l.seconds == seconds
  {
    if seconds >= 60 then MinutesSeconds(seconds / 60, seconds % 60) else SecondsOnly(seconds)
  }

  /** The whole seconds a label stands for (an hours label drops its seconds). */
  function LabelSeconds(l: Label): nat
  {
    match l
    case HoursMinutes(h, m) => (h * 60 + m) * 60
    case MinutesSeconds(m, s) => m * 60 + s
    case SecondsOnly(s) => s
  }

  /** The text a label renders as: "3h 5m", "2m 7s" or "9s". */
  function Render(l: Label): (text: string)
    ensures |text| >= 2
    ensures text[|text| - 1] == (if l.HoursMinutes? then 'm' else 's')
  {
    match l
    case HoursMinutes(h, m) => NatText(h) + "h " + NatText(m) + "m"
    case MinutesSeconds(m, s) => NatText(m) + "m " + NatText(s) + "s"
    case SecondsOnly(s) => NatText(s) + "s"
  }

  /** The number a label's text starts with, the letter after it, and the
      rest of the text. */
  function Lead(l: Label): nat
  {
    match l
    case HoursMinutes(h, _) => h
    case MinutesSeconds(m, _) => m
    case SecondsOnly(s) => s
  }

  function LeadUnit(l: Label): char
  {
    match l
    case HoursMinutes(_, _) => 'h'
    case MinutesSeconds(_, _) => 'm'
    case SecondsOnly(_) => 's'
  }

  function Trail(l: Label): string
  {
    match l
    case HoursMinutes(_, m) => " " + NatText(m) + "m"
    case MinutesSeconds(_, s) => " " + NatText(s) + "s"
    case SecondsOnly(_) => ""
  }

  lemma RenderParts(l: Label)
    ensures Render(l) == NatText(Lead(l)) + [LeadUnit(l)] + Trail(l)
  {
    match l
    case HoursMinutes(h, m) =>
      assert NatText(h) + "h " + NatText(m) + "m" == NatText(h) + ['h'] + (" " + NatText(m) + "m");
    case MinutesSeconds(m, s) =>
      assert NatText(m) + "m " + NatText(s) + "s" == NatText(m) + ['m'] + (" " + NatText(s) + "s");
    case SecondsOnly(s) =>
      assert NatText(s) + "s" == NatText(s) + ['s'] + "";
  }

  /** The second number of a two-field label (0 for a seconds label). */
  function Second(l: Label): nat
  {
    match l
    case HoursMinutes(_, m) => m
    case MinutesSeconds(_, s) => s
    case SecondsOnly(_) => 0
  }

  /** Different labels render as different texts: the text reads back the
      label's kind and both of its numbers. */
  lemma RenderInjective(l1: Label, l2: Label)
    ensures Render(l1) == Render(l2) <==> l1 == l2
  {
    RenderParts(l1);
    RenderParts(l2);
    SplitAfterDigits(NatText(Lead(l1)), LeadUnit(l1), Trail(l1), NatText(Lead(l2)), LeadUnit(l2), Trail(l2));
    NatTextInjective(Lead(l1), Lead(l2));
    NatTextInjective(Second(l1), Second(l2));
    if Render(l1) == Render(l2) && !l1.SecondsOnly? && !l2.SecondsOnly? {
      var t1, t2 := Trail(l1), Trail(l2);
      assert t1[1..|t1| - 1] == NatText(Second(l1));
      assert t2[1..|t2| - 1] == NatText(Second(l2));
    }
  }

  /** Below an hour the building card's label is exact to the second; from an
      hour up it is exact to the minute. */
  lemma UpgradeLabelPrecision(ms: nat)
    ensures ms < 3600000 ==> LabelSeconds(UpgradeLabel(ms)) == ms / 1000
    ensures ms >= 3600000 ==> LabelSeconds(UpgradeLabel(ms)) == (ms / 60000) * 60
  {
  }

  /** The training label always reads back the exact second count. */
  lemma TrainingLabelExact(seconds: nat)
    ensures LabelSeconds(TrainingLabel(seconds)) == seconds
  {
  }

  /** Under an hour the two formatters agree on a whole number of seconds. */
  lemma FormattersAgree(seconds: nat)
    requires seconds < 3600
    ensures UpgradeLabel(seconds * 1000) == TrainingLabel(seconds)
  {
    assert seconds * 1000 / 1000 == seconds;
    assert seconds / 60 / 60 == 0;
  }

  /** From an hour up they disagree: the training panel keeps counting minutes. */
  lemma FormattersDisagreeFromAnHour()
    ensures Render(TrainingLabel(3600)) == "60m 0s"
    ensures Render(UpgradeLabel(3600000)) == "1h 0m"
  {
  }

  /** Milliseconds left on an upgrade, clamped at zero. */
  function RemainingMs(endTime: int, now: int): (r: nat)
    ensures r == 0 <==> endTime <= now
    ensures r > 0 ==> now + r == endTime
  {
    if endTime - now > 0 then endTime - now else 0
  }

  /** Whole seconds left on a training entry: the floored difference, clamped
      at zero. */
  function RemainingSeconds(endTime: int, now: int): (r: nat)
    ensures r == 0 <==> endTime - now < 1000
    ensures r > 0 ==> r * 1000 <= endTime - now < (r + 1) * 1000
  {
    var s := (endTime - now) / 1000;
    if s > 0 then s else 0
  }

  /** Both countdowns only go down as the clock advances. */
  lemma CountdownsNeverRise(endTime: int, now: int, later: int)
    requires now <= later
    ensures RemainingMs(endTime, later) <= RemainingMs(endTime, now)
    ensures RemainingSeconds(endTime, later) <= RemainingSeconds(endTime, now)
  {
  }
}
