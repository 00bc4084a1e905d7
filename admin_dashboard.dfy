/**
 * The administrator's analytics dashboard: the three chart series derived
 * from the statistics the server sends (monthly revenue, orders by status,
 * daily profit), the revenue total, and the recent-transactions table.
 */
module AdminDashboard {
  import opened Common

  const Colors: seq<string> := ["#6366f1", "#10b981", "#f59e0b", "#ef4444", "#8b5cf6"]
  const Months: seq<string> := ["Jan", "Feb", "Mar", "Apr", "May", "Jun", "Jul", "Aug", "Sep", "Oct", "Nov", "Dec"]
  const Days: seq<string> := ["Sun", "Mon", "Tue", "Wed", "Thu", "Fri", "Sat"]

  /** One month of the revenue statistics; `id` is the month number. */
  datatype RevenueStat = RevenueStat(id: int, sales: int, revenue: real)
  datatype StatusStat = StatusStat(id: string, value: int)
  /** One day of the profit statistics; `id` is the weekday number. */
  datatype DailyStat = DailyStat(id: int, value: real)

  /** The chart block of the statistics; it and each of its series may be absent. */
  datatype Charts = Charts(revenueStats: Option<seq<RevenueStat>>, ordersByStatus: Option<seq<StatusStat>>, dailyProfit: Option<seq<DailyStat>>)

  datatype RevenuePoint = RevenuePoint(name: string, sales: int, revenue: real)
  datatype PieSlice = PieSlice(name: string, value: int, color: string)
  /** A bar's label: a weekday name, or the raw number when it has none. */
  datatype DayLabel = DayName(name: string) | RawDay(id: int)
  datatype Bar = Bar(day: DayLabel, value: real)

  /** `MONTHS[_id - 1] || "M" + _id`. */
  function MonthLabel(id: int): (name: string)
    ensures 1 <= id <= 12 ==> name == Months[id - 1]
    ensures !(1 <= id <= 12) ==> name == "M" + IntToString(id)
  {
    if 1 <= id <= 12 then Months[id - 1] else "M" + IntToString(id)
  }

  /** A month number outside 1 to 12 is never shown as a month name. */
  lemma MonthLabelIsMonthNameIffInRange(id: int)
    ensures MonthLabel(id) in Months <==> 1 <= id <= 12
  {
    if !(1 <= id <= 12) {
      var name := MonthLabel(id);
      assert name[1] == IntToString(id)[0];
      assert forall k :: 0 <= k < |Months| ==> 'a' <= Months[k][1] <= 'z';
    }
  }

  /** `revenueChartData`: one point per month, in order; no block or no series gives no points. */
  function RevenueChartData(charts: Option<Charts>): (r: seq<RevenuePoint>)
    ensures charts.None? || charts.value.revenueStats.None? ==> r == []
    ensures charts.Some? && charts.value.revenueStats.Some? ==>
      var stats := charts.value.revenueStats.value;
      && |r| == |stats|
      && forall i :: 0 <= i < |stats| ==>
        r[i] == RevenuePoint(MonthLabel(stats[i].id), stats[i].sales, stats[i].revenue)
  {
    if charts.None? || charts.value.revenueStats.None? then []
    else
      var stats := charts.value.revenueStats.value;
      seq(|stats|, i requires 0 <= i < |stats| => RevenuePoint(MonthLabel(stats[i].id), stats[i].sales, stats[i].revenue))
  }

  /** `totalRevenue`: the revenues of the chart points added up from 0. */
  function TotalRevenue(points: seq<RevenuePoint>): (t: real)
    ensures (forall i :: 0 <= i < |points| ==> points[i].revenue >= 0.0) ==> t >= 0.0
  {
    if points == [] then 0.0 else TotalRevenue(points[..|points| - 1]) + points[|points| - 1].revenue
  }

  /** The revenues of the statistics as the server sent them. */
  function StatsRevenue(stats: seq<RevenueStat>): real {
    if stats == [] then 0.0 else StatsRevenue(stats[..|stats| - 1]) + stats[|stats| - 1].revenue
  }

  /** The headline total is the sum of the revenues the server sent: relabelling months loses nothing. */
  lemma TotalRevenueIsStatsRevenue(charts: Charts)
    requires charts.revenueStats.Some?
    ensures TotalRevenue(RevenueChartData(Some(charts))) == StatsRevenue(charts.revenueStats.value)
  {
    TotalOfPoints(charts.revenueStats.value, RevenueChartData(Some(charts)));
  }

  lemma {:induction false} TotalOfPoints(stats: seq<RevenueStat>, points: seq<RevenuePoint>)
    requires |points| == |stats|
    requires forall i :: 0 <= i < |stats| ==> points[i].revenue == stats[i].revenue
    ensures TotalRevenue(points) == StatsRevenue(stats)
  {
    if stats != [] {
      TotalOfPoints(stats[..|stats| - 1], points[..|points| - 1]);
    }
  }

  /** `item._id.replace("_", " ")`: a string pattern, so only the first underscore becomes a space. */
  function SliceName(id: string): (name: string)
    ensures |name| == |id|
  {
    ReplaceFirst(id, '_', ' ')
  }

  /** Only the first underscore is replaced; any later one is shown as it is. */
  lemma SliceNameReplacesFirstOnly(id: string, k: nat)
    requires k < |id| && id[k] == '_'
    requires forall j :: 0 <= j < k ==> id[j] != '_'
    ensures SliceName(id) == id[..k] + " " + id[k + 1..]
  {
    ReplaceFirstSpec(id, '_', ' ', k);
  }

  lemma OnTheWaySliceName()
    ensures SliceName("on_the_way") == "on the_way"
  {
    SliceNameReplacesFirstOnly("on_the_way", 2);
    assert "on_the_way"[..2] == "on" && "on_the_way"[3..] == "the_way";
  }

  /** `pieChartData`: one slice per status in order, coloured round-robin from the five colours. */
  function PieChartData(charts: Option<Charts>): (r: seq<PieSlice>)
    ensures charts.None? || charts.value.ordersByStatus.None? ==> r == []
    ensures charts.Some? && charts.value.ordersByStatus.Some? ==>
      var stats := charts.value.ordersByStatus.value;
      && |r| == |stats|
      && forall i :: 0 <= i < |stats| ==> r[i].name == SliceName(stats[i].id) && r[i].value == stats[i].value
    ensures forall i :: 0 <= i < |r| ==> r[i].color == Colors[i % 5]
  {
    if charts.None? || charts.value.ordersByStatus.None? then []
    else
      var stats := charts.value.ordersByStatus.value;
      seq(|stats|, i requires 0 <= i < |stats| => PieSlice(SliceName(stats[i].id), stats[i].value, Colors[i % |Colors|]))
  }

  /** Two slices share a colour exactly when they are a multiple of five apart, so neighbours never do. */
  lemma PieColoursCycle(charts: Option<Charts>, i: nat, j: nat)
    requires i < j < |PieChartData(charts)|
    ensures PieChartData(charts)[i].color == PieChartData(charts)[j].color <==> (j - i) % 5 == 0
  {
    var r := PieChartData(charts);
    assert r[i].color == Colors[i % 5] && r[j].color == Colors[j % 5];
    assert (j - i) % 5 == 0 <==> i % 5 == j % 5 by {
      var q, m := i / 5, i % 5;
      var q', m' := j / 5, j % 5;
      assert j - i == 5 * (q' - q) + (m' - m);
    }
  }

  /** `barChartData`: one bar per day in order, labelled with the weekday name when the number is 1 to 7. */
  function BarChartData(charts: Option<Charts>): (r: seq<Bar>)
    ensures charts.None? || charts.value.dailyProfit.None? ==> r == []
    ensures charts.Some? && charts.value.dailyProfit.Some? ==>
      var stats := charts.value.dailyProfit.value;
      && |r| == |stats|
      && forall i :: 0 <= i < |stats| ==>
        && r[i].value == stats[i].value
        && (1 <= stats[i].id <= 7 ==> r[i].day == DayName(Days[stats[i].id - 1]))
        && (!(1 <= stats[i].id <= 7) ==> r[i].day == RawDay(stats[i].id))
  {
    if charts.None? || charts.value.dailyProfit.None? then []
    else
      var stats := charts.value.dailyProfit.value;
      seq(|stats|, i requires 0 <= i < |stats| =>
        Bar(if 1 <= stats[i].id <= 7 then DayName(Days[stats[i].id - 1]) else RawDay(stats[i].id), stats[i].value))
  }

  /** The recent-transactions table: the first five orders of the full list, or all of them when fewer. */
  function Recent<T>(all: seq<T>): (r: seq<T>)
    ensures |r| == if |all| < 5 then |all| else 5
    ensures r <= all
  {
    if |all| < 5 then all else all[..5]
  }

  /** Orders arriving after the first five never change the table. */
  lemma RecentStable<T>(all: seq<T>, more: seq<T>)
    requires |all| >= 5
    ensures Recent(all + more) == Recent(all)
  {
    assert (all + more)[..5] == all[..5];
  }
}
