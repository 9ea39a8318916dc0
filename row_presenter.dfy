/** What the table shows in one row: the cell class, the labels, whether the
    date separator is hidden, and the priorities of the two layout constraints
    that open or close the separator's space.

    The calendar of the viewer's time zone is the parameter `day`, which maps a
    time to the number of the calendar day it falls on; the date and time
    formatters are the parameters `dateText` and `timeText`. */
module RowPresenter {
  import opened ChatModel
  import opened Bubble

  /** The two layout priorities the row uses (250 and 750 in the toolkit). */
  datatype Priority = DefaultLow | DefaultHigh

  /** The settings of one table row. */
  datatype RowConfig = RowConfig(
    cellClass: CellClass,
    dateSepText: string,
    nameTimeText: string,
    chatText: string,
    dateSepHidden: bool,
    dateShowingPriority: Priority,
    dateHiddenPriority: Priority)

  /** Later times never fall on earlier days. */
  ghost predicate MonotoneCalendar(day: int -> int) {
    forall t, u :: t <= u ==> day(t) <= day(u)
  }

  /** The first row shows its date separator; any later row hides it when its
      message falls on the same calendar day as the message just above. */
  function SeparatorHidden(data: seq<ChatObject>, row: nat, day: int -> int): (hidden: bool)
    requires row < |data|
    ensures hidden ==> 0 < row && day(data[row - 1].postedDate) == day(data[row].postedDate)
    ensures 0 < row && day(data[row - 1].postedDate) == day(data[row].postedDate) ==> hidden
  {
    if row == 0 then
      false
    else
      day(data[row].postedDate) == day(data[row - 1].postedDate)
  }

  /** The priorities of the "date showing" and the "date hidden" constraints. */
  function ConstraintPriorities(hidden: bool): (p: (Priority, Priority))
    ensures p.0 != p.1
    ensures p.0 == DefaultHigh <==> !hidden
    ensures p.1 == DefaultHigh <==> hidden
  {
    (if hidden then DefaultLow else DefaultHigh, if hidden then DefaultHigh else DefaultLow)
  }

  /** The row for message `row` of `data`. */
  function CellForRow(data: seq<ChatObject>, row: nat, day: int -> int,
                      dateText: int -> string, timeText: int -> string): (cell: RowConfig)
    requires row < |data|
    ensures CellDirection(cell.cellClass) == data[row].sentOrReceived
    ensures cell.cellClass != ChatCellBase
    ensures cell.chatText == data[row].message
    ensures cell.dateSepHidden == SeparatorHidden(data, row, day)
    ensures row == 0 ==> !cell.dateSepHidden
    ensures cell.dateShowingPriority != cell.dateHiddenPriority
    ensures cell.dateShowingPriority == DefaultHigh <==> !cell.dateSepHidden
    ensures cell.dateSepText == "———— " + dateText(data[row].postedDate) + " ————"
    ensures cell.nameTimeText == data[row].userName + ", " + timeText(data[row].postedDate)
  {
    var d := data[row];
    var sepString := "———— " + dateText(d.postedDate) + " ————";
    var userString := d.userName + ", " + timeText(d.postedDate);
    var hidden := SeparatorHidden(data, row, day);
    var (showing, hiding) := ConstraintPriorities(hidden);
    RowConfig(CellClassFor(d.sentOrReceived), sepString, userString, d.message, hidden, showing, hiding)
  }

  /** The separator looks only at the row's own message and the one just
      above: two lists that agree there agree on the separator. */
  lemma SeparatorIsLocal(a: seq<ChatObject>, b: seq<ChatObject>, row: nat, day: int -> int)
    requires row < |a| && row < |b|
    requires a[row].postedDate == b[row].postedDate
    requires row > 0 ==> a[row - 1].postedDate == b[row - 1].postedDate
    ensures SeparatorHidden(a, row, day) == SeparatorHidden(b, row, day)
  {
  }

  /** On a list in time order and a calendar that runs forward, a row shows
      its separator exactly when it is the first message of its calendar day. */
  lemma SeparatorMarksFirstOfDay(data: seq<ChatObject>, row: nat, day: int -> int)
    requires MonotoneCalendar(day) && NonDecreasing(data)
    requires row < |data|
    ensures !SeparatorHidden(data, row, day) <==>
      forall j :: 0 <= j < row ==> day(data[j].postedDate) != day(data[row].postedDate)
  {
    if row > 0 && !SeparatorHidden(data, row, day) {
      var prev := day(data[row - 1].postedDate);
      assert prev < day(data[row].postedDate);
      forall j | 0 <= j < row ensures day(data[j].postedDate) != day(data[row].postedDate) {
        assert data[j].postedDate <= data[row - 1].postedDate;
        assert day(data[j].postedDate) <= prev;
      }
    }
  }

  /** On such a list no two shown separators announce the same day. */
  lemma OneSeparatorPerDay(data: seq<ChatObject>, i: nat, j: nat, day: int -> int)
    requires MonotoneCalendar(day) && NonDecreasing(data)
    requires i < j < |data|
    requires !SeparatorHidden(data, i, day) && !SeparatorHidden(data, j, day)
    ensures day(data[i].postedDate) != day(data[j].postedDate)
  {
    SeparatorMarksFirstOfDay(data, j, day);
  }

  /** Every row has a shown separator at or above it announcing its own day,
      whatever the order of the list. */
  lemma {:induction false} SeparatorAbove(data: seq<ChatObject>, row: nat, day: int -> int)
    requires row < |data|
    ensures exists j ::
              0 <= j <= row && !SeparatorHidden(data, j, day) &&
              day(data[j].postedDate) == day(data[row].postedDate)
  {
    if SeparatorHidden(data, row, day) {
      SeparatorAbove(data, row - 1, day);
    } else {
      assert !SeparatorHidden(data, row, day);
    }
  }
}
