/** The watering-schedule list that both the plant-detail screen and the
    custom-plant form keep: add at the end, edit the first equal entry,
    delete at an index, and the dialog that supplies time and amount. */
module Schedules {
  import opened Strings
  import opened Entities
  import NumberInput

  // ---------------------------------------------------------------------------
  // List operations
  // ---------------------------------------------------------------------------

  /** `indexOf`: the first index holding `x`, or -1 when there is none. */
  function IndexOf(xs: seq<WateringSchedule>, x: WateringSchedule): (r: int)
    ensures -1 <= r < |xs|
    ensures r == -1 <==> x !in xs
    ensures r >= 0 ==> xs[r] == x && forall j :: 0 <= j < r ==> xs[j] != x
    decreases |xs|
  {
    if |xs| == 0 then -1
    else if xs[0] == x then 0
    else
      var k := IndexOf(xs[1..], x);
      if k == -1 then -1 else k + 1
  }

  /** `removeAt(i)`: the list without its `i`-th entry. */
  function RemovedAt(xs: seq<WateringSchedule>, i: nat): (r: seq<WateringSchedule>)
    requires i < |xs|
    ensures |r| == |xs| - 1
    ensures forall j :: 0 <= j < i ==> r[j] == xs[j]
    ensures forall j :: i <= j < |r| ==> r[j] == xs[j + 1]
    ensures multiset(r) + multiset{xs[i]} == multiset(xs)
  {
    assert xs == xs[..i] + [xs[i]] + xs[i + 1..];
    xs[..i] + xs[i + 1..]
  }

  /** The edit handler: `set(indexOf(target), w)` when the target is present,
      otherwise the list as it was. */
  function EditFirst(xs: seq<WateringSchedule>, target: WateringSchedule, w: WateringSchedule): (r: seq<WateringSchedule>)
    ensures |r| == |xs|
    ensures target !in xs ==> r == xs
    ensures target in xs ==> r[IndexOf(xs, target)] == w
    ensures forall j :: 0 <= j < |xs| && j != IndexOf(xs, target) ==> r[j] == xs[j]
  {
    var k := IndexOf(xs, target);
    if k != -1 then xs[k := w] else xs
  }

  /** Adding an entry and then deleting the last one restores the list. */
  lemma DeleteUndoesAdd(xs: seq<WateringSchedule>, w: WateringSchedule)
    ensures RemovedAt(xs + [w], |xs|) == xs
  {
  }

  /** Editing an entry to a value not yet in the list, and then that value
      back, restores the list. */
  lemma EditBackRestores(xs: seq<WateringSchedule>, target: WateringSchedule, w: WateringSchedule)
    requires target in xs && w !in xs
    ensures EditFirst(EditFirst(xs, target, w), w, target) == xs
  {
    var k := IndexOf(xs, target);
    var ys := EditFirst(xs, target, w);
    assert ys[k] == w;
    forall j | 0 <= j < k ensures ys[j] != w {
      assert ys[j] == xs[j];
    }
    assert IndexOf(ys, w) == k;
  }

  /** When two entries are equal, editing the later one rewrites the earlier
      one and leaves the later one as it was. */
  lemma EditTargetsFirstDuplicate(xs: seq<WateringSchedule>, i: nat, j: nat, w: WateringSchedule)
    requires i < j < |xs| && xs[i] == xs[j]
    ensures EditFirst(xs, xs[j], w)[j] == xs[j]
    ensures IndexOf(xs, xs[j]) <= i
  {
  }

  // ---------------------------------------------------------------------------
  // The schedule dialog
  // ---------------------------------------------------------------------------

  const DefaultTime: string := "08:00"
  const DefaultAmount: string := "1.8"

  /** The dialog's two text fields. On the detail screen the amount is a plain
      text field; on the custom-plant form it is a number field for 0 to 10. */
  class ScheduleDialog {
    var time: string
    var amount: string
    const checksAmount: bool

    /** Opened for adding (`schedule` absent) or for editing `schedule`. */
    constructor(schedule: Option<WateringSchedule>, checksAmount: bool)
      ensures schedule.None? ==> time == DefaultTime && amount == DefaultAmount
      ensures schedule.Some? ==> time == schedule.value.time && amount == schedule.value.amount
      ensures this.checksAmount == checksAmount
    {
      time := schedule.GetOr(WateringSchedule(DefaultTime, DefaultAmount)).time;
      amount := schedule.GetOr(WateringSchedule(DefaultTime, DefaultAmount)).amount;
      this.checksAmount := checksAmount;
    }

    /** The time field stores what is typed. */
    method TypeTime(t: string)
      modifies this
      ensures time == t && amount == old(amount)
    {
      time := t;
    }

    /** The amount field stores what is typed, unless it is the number field
      and refuses the text. */
    method TypeAmount(t: string)
      modifies this
      ensures time == old(time)
      ensures amount == (if checksAmount then NumberInput.Update(old(amount), t, 0, 10) else t)
    {
      if checksAmount {
        amount := NumberInput.Update(amount, t, 0, 10);
      } else {
        amount := t;
      }
    }
  }

  // ---------------------------------------------------------------------------
  // The editor state of a screen
  // ---------------------------------------------------------------------------

  /** `schedules`, `showAddDialog` and `showEditDialog` of a screen. */
  class ScheduleEditor {
    var schedules: seq<WateringSchedule>
    var showAddDialog: bool
    var showEditDialog: Option<WateringSchedule>

    constructor(initial: seq<WateringSchedule>)
      ensures schedules == initial && !showAddDialog && showEditDialog == None
    {
      schedules := initial;
      showAddDialog := false;
      showEditDialog := None;
    }

    method OpenAdd()
      modifies this
      ensures showAddDialog && schedules == old(schedules) && showEditDialog == old(showEditDialog)
    {
      showAddDialog := true;
    }

    method DismissAdd()
      modifies this
      ensures !showAddDialog && schedules == old(schedules) && showEditDialog == old(showEditDialog)
    {
      showAddDialog := false;
    }

    /** Saving the add dialog appends the new entry and closes the dialog. */
    method SaveAdd(time: string, amount: string)
      modifies this
      ensures schedules == old(schedules) + [WateringSchedule(time, amount)]
      ensures !showAddDialog && showEditDialog == old(showEditDialog)
    {
      schedules := schedules + [WateringSchedule(time, amount)];
      showAddDialog := false;
    }

    /** The edit button of a row remembers that row's entry. */
    method OpenEdit(schedule: WateringSchedule)
      modifies this
      ensures showEditDialog == Some(schedule)
      ensures schedules == old(schedules) && showAddDialog == old(showAddDialog)
    {
      showEditDialog := Some(schedule);
    }

    method DismissEdit()
      modifies this
      ensures showEditDialog == None
      ensures schedules == old(schedules) && showAddDialog == old(showAddDialog)
    {
      showEditDialog := None;
    }

    /** Saving the edit dialog overwrites the first entry equal to the one
      being edited, if any is left, and closes the dialog. */
    method SaveEdit(time: string, amount: string)
      requires showEditDialog.Some?
      modifies this
      ensures schedules == EditFirst(old(schedules), old(showEditDialog).value, WateringSchedule(time, amount))
      ensures showEditDialog == None && showAddDialog == old(showAddDialog)
    {
      var index := IndexOf(schedules, showEditDialog.value);
      if index != -1 {
        schedules := schedules[index := WateringSchedule(time, amount)];
      }
      showEditDialog := None;
    }

    /** The delete button of row `index` removes that row. */
    method Delete(index: nat)
      requires index < |schedules|
      modifies this
      ensures schedules == RemovedAt(old(schedules), index)
      ensures showAddDialog == old(showAddDialog) && showEditDialog == old(showEditDialog)
    {
      schedules := schedules[..index] + schedules[index + 1..];
    }
  }

  // ---------------------------------------------------------------------------
  // The rows drawn for the list
  // ---------------------------------------------------------------------------

  datatype Row = Entry(index: nat, schedule: WateringSchedule) | Divider | EmptyState

  /** `forEachIndexed` over the list: one row per entry, a divider after every
      entry but the last, and the empty-state block when there is no entry. */
  method LayoutRows(xs: seq<WateringSchedule>) returns (rows: seq<Row>)
    ensures |xs| == 0 ==> rows == [EmptyState]
    ensures |xs| > 0 ==> |rows| == 2 * |xs| - 1
    ensures forall i :: 0 <= i < |xs| ==> rows[2 * i] == Entry(i, xs[i])
    ensures forall i :: 0 <= i < |xs| - 1 ==> rows[2 * i + 1] == Divider
  {
    rows := [];
    for index := 0 to |xs|
      invariant |rows| == (if index == 0 then 0 else 2 * index - 1)
      invariant forall i :: 0 <= i < index ==> rows[2 * i] == Entry(i, xs[i])
      invariant forall i :: 0 <= i < index - 1 ==> rows[2 * i + 1] == Divider
    {
      if index > 0 {
        rows := rows + [Divider];
      }
      rows := rows + [Entry(index, xs[index])];
    }
    if |xs| == 0 {
      rows := rows + [EmptyState];
    }
  }

  /** In a layout of that shape the empty-state block appears exactly when
      the list is empty. */
  lemma EmptyStateIffEmpty(xs: seq<WateringSchedule>, rows: seq<Row>)
    requires |xs| == 0 ==> rows == [EmptyState]
    requires |xs| > 0 ==> |rows| == 2 * |xs| - 1
    requires forall i :: 0 <= i < |xs| ==> rows[2 * i] == Entry(i, xs[i])
    requires forall i :: 0 <= i < |xs| - 1 ==> rows[2 * i + 1] == Divider
    ensures EmptyState in rows <==> |xs| == 0
  {
    if |xs| > 0 {
      forall k | 0 <= k < |rows| ensures rows[k] != EmptyState {
        if k % 2 == 0 {
          assert rows[2 * (k / 2)] == Entry(k / 2, xs[k / 2]);
        } else {
          assert rows[2 * (k / 2) + 1] == Divider;
        }
      }
    }
  }
}
