/**
 * The courier's dashboard: the weekly line chart, the three-slice pie of
 * delivered, cancelled and pending rates, and the formatted status badge
 * of today's orders.
 */
module DeliveryDashboard {
  import opened Common
  import opened Types

  /** One day of the weekly statistics; each field may be missing. */
  datatype WeeklyStat = WeeklyStat(id: Option<string>, orders: Option<int>, income: Option<real>)
  datatype ChartPoint = ChartPoint(name: string, orders: int, income: real)

  /** `chartData`: one point per weekly stat, in order; a missing name reads "" and missing counts read 0. */
  function ChartData(weeklyStats: Option<seq<WeeklyStat>>): (r: seq<ChartPoint>)
    ensures weeklyStats.None? ==> r == []
    ensures weeklyStats.Some? ==> |r| == |weeklyStats.value|
    ensures weeklyStats.Some? ==> forall i :: 0 <= i < |r| ==>
      var s := weeklyStats.value[i];
      && (s.id.Some? ==> r[i].name == s.id.value) && (s.id.None? ==> r[i].name == "")
      && (s.orders.Some? ==> r[i].orders == s.orders.value) && (s.orders.None? ==> r[i].orders == 0)
      && (s.income.Some? ==> r[i].income == s.income.value) && (s.income.None? ==> r[i].income == 0.0)
  {
    if weeklyStats.None? then []
    else
      var stats := weeklyStats.value;
      seq(|stats|, i requires 0 <= i < |stats| =>
        ChartPoint(
          if stats[i].id.Some? then stats[i].id.value else "",
          if stats[i].orders.Some? then stats[i].orders.value else 0,
          if stats[i].income.Some? then stats[i].income.value else 0.0))
  }

  /**
   * `Number(x) || 0`: a rate that is missing or not a number (`None`) is 0;
   * any number is kept, 0 included.
   */
  function Rate(x: Option<real>): (r: real)
    ensures x.None? ==> r == 0.0
    ensures x.Some? ==> r == x.value
  {
    if x.Some? && x.value != 0.0 then x.value else 0.0
  }

  /** The pie's three values: delivered, cancelled, and what remains of 100, never below 0. */
  datatype Pie = Pie(delivered: real, canceled: real, pending: real)

  function PieData(completionRate: Option<real>, cancelRate: Option<real>): (p: Pie)
    ensures p.delivered == Rate(completionRate) && p.canceled == Rate(cancelRate)
    ensures p.pending >= 0.0
    ensures p.pending == 0.0 <==> p.delivered + p.canceled >= 100.0
  {
    var delivered := Rate(completionRate);
    var canceled := Rate(cancelRate);
    var rest := 100.0 - (delivered + canceled);
    Pie(delivered, canceled, if rest > 0.0 then rest else 0.0)
  }

  /** When the two rates leave room, the three slices make up exactly 100. */
  lemma PieSumsToHundred(completionRate: Option<real>, cancelRate: Option<real>)
    requires Rate(completionRate) + Rate(cancelRate) <= 100.0
    ensures PieData(completionRate, cancelRate).delivered + PieData(completionRate, cancelRate).canceled
      + PieData(completionRate, cancelRate).pending == 100.0
  {
  }

  /** When the rates overshoot, the slices add up to more than 100 and pending is clamped to 0. */
  lemma PieOvershoot(completionRate: Option<real>, cancelRate: Option<real>)
    requires Rate(completionRate) + Rate(cancelRate) > 100.0
    ensures PieData(completionRate, cancelRate).pending == 0.0
    ensures PieData(completionRate, cancelRate).delivered + PieData(completionRate, cancelRate).canceled
      + PieData(completionRate, cancelRate).pending > 100.0
  {
  }

  /** The characters the regular expression `\w` matches: ASCII letters, digits and the underscore. */
  predicate WordChar(c: char) {
    ('a' <= c <= 'z') || ('A' <= c <= 'Z') || ('0' <= c <= '9') || c == '_'
  }

  /** The result of `.replace(/\b\w/g, upper)` on `t`: a word character that starts a word is upper-cased. */
  function CapitalizeWords(t: string): (r: string)
    ensures |r| == |t|
    ensures forall i :: 0 <= i < |t| ==>
      r[i] == if WordChar(t[i]) && (i == 0 || !WordChar(t[i - 1])) then UpperChar(t[i]) else t[i]
  {
    seq(|t|, i requires 0 <= i < |t| =>
      if WordChar(t[i]) && (i == 0 || !WordChar(t[i - 1])) then UpperChar(t[i]) else t[i])
  }

  /** `formatStatus`: underscores become spaces, then every word starts with a capital. */
  function FormatStatus(s: string): (r: string)
    ensures |r| == |s|
    ensures '_' !in r
    ensures forall i :: 0 <= i < |s| && s[i] == '_' ==> r[i] == ' '
  {
    CapitalizeWords(ReplaceAll(s, '_', ' '))
  }

  lemma FormatOnTheWay()
    ensures FormatStatus(OnTheWay) == "On The Way"
  {
  }

  /** Only letters change, and only in case: lower-casing the formatted text gives the underscore-free status back. */
  lemma FormatStatusOnlyCapitalizes(s: string)
    requires forall i :: 0 <= i < |s| ==> !('A' <= s[i] <= 'Z')
    ensures Lower(FormatStatus(s)) == ReplaceAll(s, '_', ' ')
  {
    var t := ReplaceAll(s, '_', ' ');
    var r := FormatStatus(s);
    forall i | 0 <= i < |s| ensures LowerChar(r[i]) == t[i] {
    }
  }

  const GrayStyle := "bg-gray-100 text-gray-700"

  /** The badge colours; a status outside the five gets the gray fallback. */
  function BadgeStyle(status: string): (style: string)
    ensures !KnownStatus(status) <==> style == GrayStyle
  {
    if status == Delivered then "bg-green-100 text-green-700 border-green-200"
    else if status == Accepted then "bg-blue-100 text-blue-700 border-blue-200"
    else if status == OnTheWay then "bg-indigo-100 text-indigo-700 border-indigo-200"
    else if status == Pending then "bg-yellow-100 text-yellow-700 border-yellow-200"
    else if status == Cancelled then "bg-red-100 text-red-700 border-red-200"
    else GrayStyle
  }
}
