/** The plant-detail screen's computed values: the growth progress bar and the
    planting-season bar chart. Its schedule list is a `Schedules.ScheduleEditor`
    started from the task's own schedules. */
module PlantDetail {
  import opened Entities
  import Schedules

  /** The assumed length of a growing season, in days. */
  const SeasonDays: int := 70

  /** `coerceIn(lo, hi)`. */
  function CoerceIn(x: real, lo: real, hi: real): (r: real)
    requires lo <= hi
    ensures lo <= r <= hi
    ensures lo <= x <= hi ==> r == x
    ensures x < lo ==> r == lo
    ensures x > hi ==> r == hi
  {
    if x < lo then lo else if x > hi then hi else x
  }

  /** The filled fraction of the progress bar: the days planted over 70,
      clamped to the bar. */
  function GrowthProgress(days: int): (p: real)
    ensures 0.0 <= p <= 1.0
    ensures days <= 0 ==> p == 0.0
    ensures days >= SeasonDays ==> p == 1.0
    ensures 0 <= days <= SeasonDays ==> p * SeasonDays as real == days as real
  {
    CoerceIn(days as real / SeasonDays as real, 0.0, 1.0)
  }

  /** More days planted never shrink the bar. */
  lemma ProgressMonotone(d1: int, d2: int)
    requires d1 <= d2
    ensures GrowthProgress(d1) <= GrowthProgress(d2)
  {
    assert d1 as real / SeasonDays as real <= d2 as real / SeasonDays as real;
  }

  /** The schedule list of the detail screen starts as the task's schedules. */
  method OpenSchedules(plant: ScheduledTask) returns (editor: Schedules.ScheduleEditor)
    ensures fresh(editor)
    ensures editor.schedules == plant.wateringSchedules
    ensures !editor.showAddDialog && editor.showEditDialog.None?
  {
    editor := new Schedules.ScheduleEditor(plant.wateringSchedules);
  }

  // ---------------------------------------------------------------------------
  // Planting-season chart
  // ---------------------------------------------------------------------------

  const Months: seq<string> := ["Jan", "Feb", "Mar", "Apr", "May", "Jun", "Jul", "Aug", "Sep", "Oct", "Nov", "Dec"]

  /** One suitability level per month: 0 poor, 1 good, 2 optimal. */
  const SeasonData: seq<int> := [0, 0, 1, 2, 2, 1, 0, 0, 1, 2, 2, 1]

  /** The bar height for a suitability level; an unknown level draws as poor. */
  function BarHeight(level: int): (h: int)
    ensures level == 1 ==> h == 60
    ensures level == 2 ==> h == 95
    ensures level != 1 && level != 2 ==> h == 25
  {
    match level
    case 0 => 25
    case 1 => 60
    case 2 => 95
    case _ => 25
  }

  /** A better level never draws a lower bar, and the three known levels draw
      three different heights. */
  lemma BarHeightOrdered(a: int, b: int)
    requires 0 <= a <= b <= 2
    ensures BarHeight(a) <= BarHeight(b)
    ensures a < b ==> BarHeight(a) < BarHeight(b)
  {
  }

  /** `months.forEachIndexed`: one bar per month, with the height of that
      month's level. */
  method SeasonBars() returns (heights: seq<int>)
    ensures |heights| == |Months|
    ensures forall i :: 0 <= i < |Months| ==> heights[i] == BarHeight(SeasonData[i])
  {
    heights := [];
    for index := 0 to |Months|
      invariant |heights| == index
      invariant forall i :: 0 <= i < index ==> heights[i] == BarHeight(SeasonData[i])
    {
      heights := heights + [BarHeight(SeasonData[index])];
    }
  }

  /** April, May, October and November are the optimal months and draw the
      tallest bars. */
  lemma OptimalMonths()
    ensures forall i :: 0 <= i < |Months| ==> (BarHeight(SeasonData[i]) == 95 <==> Months[i] in {"Apr", "May", "Oct", "Nov"})
  {
  }
}
