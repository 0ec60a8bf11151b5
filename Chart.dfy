/**
 * The dashboard's chart windows (client/src/components/Home/index.js): one
 * bounded, time-ordered list of chart points per measurement type, fed one
 * record at a time in real-time mode and replaced wholesale by a date-range
 * query. Times are milliseconds since the epoch; the current time is a
 * parameter instead of `Date.now()`.
 */
module Chart {
  import opened Wrappers

  datatype Kind = BeatsPerMinute | StepsPerMinute

  function Other(kind: Kind): (k: Kind)
    ensures k != kind
  {
    match kind
    case BeatsPerMinute => StepsPerMinute
    case StepsPerMinute => BeatsPerMinute
  }

  /** A chart point `[Date, value]`, or the gap marker `[null, null]`. */
  datatype Entry = Gap | Sample(at: int, value: Option<int>)

  /** `record.val()`: the measurement type, its value and its timestamp. */
  datatype Record = Record(kind: Kind, value: Option<int>, timestamp: int)

  /** The picked date range; both ends are inclusive. */
  datatype DateRange = DateRange(start: int, end: int)

  /** A real-time item older than this many whole seconds becomes a gap. */
  const STALE_AFTER_SECONDS: int := 70
  /** The initial window limit (also `_realTimeItems`). */
  const REAL_TIME_ITEMS: int := 25
  /** The window limit in date-range mode. */
  const DATE_RANGE_ITEMS: int := 50
  /** `moment.add(1, 'days')`, taken as a fixed 24 hours. */
  const ONE_DAY_MS: int := 86_400_000

  /** date-fns `differenceInSeconds`: whole seconds from `right` to `left`, truncated toward zero. */
  function DifferenceInSeconds(left: int, right: int): (r: int)
    ensures left - right >= 0 ==> 0 <= r && r * 1000 <= left - right < (r + 1) * 1000
    ensures left - right < 0 ==> r <= 0 && (r - 1) * 1000 < left - right <= r * 1000
  {
    var diff := left - right;
    if diff >= 0 then diff / 1000 else -((-diff) / 1000)
  }

  /** A record is stale when it is more than 70 whole seconds old: in milliseconds, at least 71 000 ms. */
  predicate IsStale(now: int, timestamp: int): (stale: bool)
    ensures stale <==> now - timestamp >= 71_000
  {
    DifferenceInSeconds(now, timestamp) > STALE_AFTER_SECONDS
  }

  /** The time a point carries (`newItem[0]`), null for a gap. */
  function TimeOf(e: Entry): Option<int> {
    if e.Sample? then Some(e.at) else None
  }

  /** Index of the rightmost non-gap point, or -1 when every point is a gap. */
  function LastSampleIndex(s: seq<Entry>): (r: int)
    ensures -1 <= r < |s|
    ensures r >= 0 ==> s[r].Sample?
    ensures forall j :: r < j < |s| ==> s[j].Gap?
    decreases |s|
  {
    if |s| == 0 then -1
    else if s[|s| - 1].Sample? then |s| - 1
    else LastSampleIndex(s[..|s| - 1])
  }

  /** `lastItem`: the rightmost point that is not a gap. */
  function LastItem(s: seq<Entry>): (r: Option<Entry>)
    ensures r.None? <==> forall i :: 0 <= i < |s| ==> s[i].Gap?
    ensures r.Some? ==> r.value.Sample?
                        && exists i :: 0 <= i < |s| && s[i] == r.value && forall j :: i < j < |s| ==> s[j].Gap?
  {
    var k := LastSampleIndex(s);
    if k >= 0 then Some(s[k]) else None
  }

  /**
   * What onItemAddedRealTime stores for a record: a gap when the record is
   * stale; nothing (None) when the last point is later than it; otherwise
   * the record's own point.
   */
  function Admit(list: seq<Entry>, data: Record, now: int): (r: Option<Entry>)
    ensures r == Some(Gap) <==> IsStale(now, data.timestamp)
    ensures r.Some? && r.value.Sample? ==>
              r.value == EntryOf(data) && (LastItem(list).Some? ==> LastItem(list).value.at <= data.timestamp)
  {
    if IsStale(now, data.timestamp) then Some(Gap)
    else if LastItem(list).Some? && LastItem(list).value.at > data.timestamp then None
    else Some(Sample(data.timestamp, data.value))
  }

  /** `Array.prototype.shift`: drop the first element; an empty array stays empty. */
  function Shift(s: seq<Entry>): (r: seq<Entry>)
    ensures |s| == 0 ==> r == []
    ensures |s| > 0 ==> |r| == |s| - 1 && forall i :: 0 <= i < |r| ==> r[i] == s[i + 1]
  {
    if |s| == 0 then [] else s[1..]
  }

  /** The list after the bounded append: shift when at the limit, then push. */
  function Appended(list: seq<Entry>, limit: int, e: Entry): (r: seq<Entry>)
    ensures |r| >= 1 && r[|r| - 1] == e
    ensures |r| <= |list| + 1
    ensures |list| >= limit && |list| > 0 ==> |r| == |list|
  {
    (if |list| >= limit then Shift(list) else list) + [e]
  }

  /** Non-gap points appear in non-decreasing time order. */
  ghost predicate TimeOrdered(s: seq<Entry>) {
    forall i, j :: 0 <= i < j < |s| && s[i].Sample? && s[j].Sample? ==> s[i].at <= s[j].at
  }

  /** isWithinRange: both ends inclusive. */
  predicate InRange(r: Record, range: DateRange) {
    range.start <= r.timestamp <= range.end
  }

  function EntryOf(r: Record): Entry {
    Sample(r.timestamp, r.value)
  }

  /** The points onItems collects: the in-range records, in iteration order. */
  function Filtered(records: seq<Record>, range: DateRange): (r: seq<Entry>)
    ensures |r| <= |records|
    ensures forall k :: 0 <= k < |r| ==> r[k].Sample? && range.start <= r[k].at <= range.end
    decreases |records|
  {
    if |records| == 0 then []
    else
      var last := records[|records| - 1];
      Filtered(records[..|records| - 1], range) + (if InRange(last, range) then [EntryOf(last)] else [])
  }

  /** The OK handler's widening: a range whose ends coincide gets one more day. */
  function Widened(range: DateRange): (w: DateRange)
    ensures w.start == range.start && w.end >= range.end
    ensures range.start == range.end ==> w.end == range.end + ONE_DAY_MS
    ensures w.start != w.end
    ensures range.start != range.end ==> w == range
  {
    if range.start == range.end then DateRange(range.start, range.end + ONE_DAY_MS) else range
  }

  function Max(a: int, b: int): int {
    if a >= b then a else b
  }

  // ---------------------------------------------------------------------
  // State
  // ---------------------------------------------------------------------

  /** One measurement type's chart state: its points, the time of the last one stored, and its size limit. */
  class Window {
    var list: seq<Entry>
    var last: Option<int>
    var limit: int

    constructor (last: Option<int>, limit: int)
      ensures list == [] && this.last == last && this.limit == limit
    {
      list := [];
      this.last := last;
      this.limit := limit;
    }
  }

  /** The Home component's state. The window objects are mutated in place. */
  class Home {
    const beatsPerMinute: Window
    const stepsPerMinute: Window
    var realTime: bool
    var showDateRangeModal: bool
    var dateRange: Option<DateRange>

    ghost predicate Valid() {
      beatsPerMinute != stepsPerMinute
    }

    /** The window of a measurement type. */
    function WindowOf(kind: Kind): Window {
      match kind
      case BeatsPerMinute => beatsPerMinute
      case StepsPerMinute => stepsPerMinute
    }

    /** The initial state; `now` is the construction time that `new Date()` records as `last`. */
    constructor (now: int)
      ensures Valid() && fresh(beatsPerMinute) && fresh(stepsPerMinute)
      ensures beatsPerMinute.list == [] && beatsPerMinute.last == Some(now) && beatsPerMinute.limit == REAL_TIME_ITEMS
      ensures stepsPerMinute.list == [] && stepsPerMinute.last == Some(now) && stepsPerMinute.limit == REAL_TIME_ITEMS
      ensures realTime && !showDateRangeModal && dateRange.None?
    {
      beatsPerMinute := new Window(Some(now), REAL_TIME_ITEMS);
      stepsPerMinute := new Window(Some(now), REAL_TIME_ITEMS);
      realTime := true;
      showDateRangeModal := false;
      dateRange := None;
    }

    /** setChartData: replace the type's list and record the new point's time. */
    method SetChartData(kind: Kind, newItem: Entry, newArray: seq<Entry>)
      requires Valid()
      modifies WindowOf(kind)
      ensures WindowOf(kind).list == newArray && WindowOf(kind).last == TimeOf(newItem)
      ensures WindowOf(kind).limit == old(WindowOf(kind).limit)
      ensures unchanged(WindowOf(Other(kind)))
    {
      var w := WindowOf(kind);
      w.list := newArray;
      w.last := TimeOf(newItem);
    }

    /** setLimit: set both limits and empty both lists. */
    method SetLimit(number: int)
      requires Valid()
      modifies beatsPerMinute, stepsPerMinute
      ensures beatsPerMinute.limit == number && beatsPerMinute.list == [] && beatsPerMinute.last == old(beatsPerMinute.last)
      ensures stepsPerMinute.limit == number && stepsPerMinute.list == [] && stepsPerMinute.last == old(stepsPerMinute.last)
    {
      beatsPerMinute.limit := number;
      beatsPerMinute.list := [];
      stepsPerMinute.limit := number;
      stepsPerMinute.list := [];
    }

    /** onRealTimeButtonClick: back to real-time mode with the real-time limit (the Firebase subscription is not modelled). */
    method OnRealTimeButtonClick()
      requires Valid()
      modifies this`realTime, beatsPerMinute, stepsPerMinute
      ensures realTime
      ensures beatsPerMinute.limit == REAL_TIME_ITEMS && beatsPerMinute.list == [] && beatsPerMinute.last == old(beatsPerMinute.last)
      ensures stepsPerMinute.limit == REAL_TIME_ITEMS && stepsPerMinute.list == [] && stepsPerMinute.last == old(stepsPerMinute.last)
    {
      SetLimit(REAL_TIME_ITEMS);
      realTime := true;
    }

    /** onDateRangeButtonClick: leave real-time mode, widen the windows to 50 and open the modal. */
    method OnDateRangeButtonClick()
      requires Valid()
      modifies this`realTime, this`showDateRangeModal, beatsPerMinute, stepsPerMinute
      ensures !realTime && showDateRangeModal
      ensures beatsPerMinute.limit == DATE_RANGE_ITEMS && beatsPerMinute.list == [] && beatsPerMinute.last == old(beatsPerMinute.last)
      ensures stepsPerMinute.limit == DATE_RANGE_ITEMS && stepsPerMinute.list == [] && stepsPerMinute.last == old(stepsPerMinute.last)
    {
      SetLimit(DATE_RANGE_ITEMS);
      realTime := false;
      showDateRangeModal := true;
    }

    /**
     * onItemAddedRealTime: scan back for the last point that is not a gap,
     * turn a stale record into a gap, drop a record older than that point,
     * otherwise shift at the limit and push.
     */
    method OnItemAddedRealTime(data: Record, now: int)
      requires Valid()
      modifies WindowOf(data.kind)
      ensures var w := WindowOf(data.kind);
              match Admit(old(w.list), data, now)
              case None => w.list == old(w.list) && w.last == old(w.last)
              case Some(e) => w.list == Appended(old(w.list), old(w.limit), e) && w.last == TimeOf(e)
      ensures WindowOf(data.kind).limit == old(WindowOf(data.kind).limit)
      ensures unchanged(WindowOf(Other(data.kind)))
    {
      var w := WindowOf(data.kind);
      var newArray := w.list;
      var currentItems := |w.list|;
      var newItem := Sample(data.timestamp, data.value);
      var lastItem: Option<Entry> := None;

      if currentItems > 0 {
        var i := currentItems - 1;
        while i >= 0
          invariant -1 <= i < currentItems
          invariant forall j :: i < j < currentItems ==> w.list[j].Gap?
          invariant lastItem.None?
        {
          if w.list[i].Sample? {
            lastItem := Some(w.list[i]);
            break;
          }
          i := i - 1;
        }
      }
      assert lastItem == LastItem(w.list);

      if DifferenceInSeconds(now, newItem.at) > STALE_AFTER_SECONDS {
        newItem := Gap;
      } else if lastItem.Some? && lastItem.value.at > newItem.at {
        return;
      }

      if |newArray| >= w.limit {
        newArray := Shift(newArray);
      }
      newArray := newArray + [newItem];
      SetChartData(data.kind, newItem, newArray);
    }

    /** onChartReady: feed a record with null value and null timestamp (`new Date(null)` is the epoch). */
    method OnChartReady(kind: Kind, now: int)
      requires Valid()
      modifies WindowOf(kind)
      ensures var w := WindowOf(kind);
              match Admit(old(w.list), Record(kind, None, 0), now)
              case None => w.list == old(w.list) && w.last == old(w.last)
              case Some(e) => w.list == Appended(old(w.list), old(w.limit), e) && w.last == TimeOf(e)
      ensures WindowOf(kind).limit == old(WindowOf(kind).limit)
      ensures unchanged(WindowOf(Other(kind)))
    {
      OnItemAddedRealTime(Record(kind, None, 0), now);
    }

    /**
     * onItems: collect the records inside the date range, in iteration
     * order, then hand them to the window of the LAST record's type. It
     * throws (changing nothing) when there are no records, no range, or a
     * range whose start is after its end.
     */
    method OnItems(records: seq<Record>) returns (completed: bool)
      requires Valid()
      modifies beatsPerMinute, stepsPerMinute
      ensures completed <==> |records| > 0 && dateRange.Some? && dateRange.value.start <= dateRange.value.end
      ensures !completed ==> unchanged(beatsPerMinute) && unchanged(stepsPerMinute)
      ensures completed ==>
                var lastRecord := records[|records| - 1];
                var w := WindowOf(lastRecord.kind);
                w.list == Filtered(records, dateRange.value) && w.last == Some(lastRecord.timestamp)
                && w.limit == old(w.limit) && unchanged(WindowOf(Other(lastRecord.kind)))
    {
      var newArray: seq<Entry> := [];
      var newItem: Entry := Gap;
      var data: Option<Record> := None;
      var i := 0;
      while i < |records|
        invariant 0 <= i <= |records|
        invariant i == 0 ==> newArray == [] && data.None?
        invariant i > 0 ==> dateRange.Some? && dateRange.value.start <= dateRange.value.end
                            && newArray == Filtered(records[..i], dateRange.value)
                            && data == Some(records[i - 1]) && newItem == EntryOf(records[i - 1])
      {
        data := Some(records[i]);
        newItem := EntryOf(records[i]);
        if dateRange.None? || dateRange.value.start > dateRange.value.end {
          return false;
        }
        assert records[..i + 1][..i] == records[..i];
        if InRange(records[i], dateRange.value) {
          newArray := newArray + [newItem];
        }
        i := i + 1;
      }
      if data.None? {
        return false;
      }
      assert records[..i] == records;
      SetChartData(data.value.kind, newItem, newArray);
      completed := true;
    }

    /**
     * The OK button: close the modal; a range whose ends coincide is widened
     * by one day, in the component's own range object (the copy is
     * shallow). Returns the range to query, or None when no range was picked
     * (the handler throws).
     */
    method OnDateRangeModalOkButtonClick() returns (query: Option<DateRange>)
      modifies this`showDateRangeModal, this`dateRange
      ensures !showDateRangeModal
      ensures old(dateRange).None? ==> query.None? && dateRange.None?
      ensures old(dateRange).Some? ==> dateRange == Some(Widened(old(dateRange).value)) && query == dateRange
    {
      showDateRangeModal := false;
      if dateRange.None? {
        return None;
      }
      if dateRange.value.start == dateRange.value.end {
        dateRange := Some(DateRange(dateRange.value.start, dateRange.value.end + ONE_DAY_MS));
      }
      query := dateRange;
    }
  }

  // ---------------------------------------------------------------------
  // Properties
  // ---------------------------------------------------------------------

  /**
   * The stale check comes first: a stale record is stored as a gap and is
   * never dropped; a record is dropped exactly when it is fresh and older
   * than the last non-gap point; a fresh record is stored as itself.
   */
  lemma AdmitCases(list: seq<Entry>, data: Record, now: int)
    ensures IsStale(now, data.timestamp) ==> Admit(list, data, now) == Some(Gap)
    ensures Admit(list, data, now).None? <==>
              !IsStale(now, data.timestamp)
              && exists i :: 0 <= i < |list| && list[i].Sample? && list[i].at > data.timestamp
                             && forall j :: i < j < |list| ==> list[j].Gap?
    ensures !IsStale(now, data.timestamp) && Admit(list, data, now).Some? ==>
              Admit(list, data, now) == Some(Sample(data.timestamp, data.value))
  {
    var k := LastSampleIndex(list);
    forall i | 0 <= i < |list| && list[i].Sample? && forall j :: i < j < |list| ==> list[j].Gap?
      ensures i == k
    {
    }
  }

  /** onChartReady injects a gap marker whenever the clock is at least 71 s past the epoch. */
  lemma ChartReadyInjectsGap(list: seq<Entry>, kind: Kind, now: int)
    requires now >= 71_000
    ensures Admit(list, Record(kind, None, 0), now) == Some(Gap)
  {
  }

  /**
   * Below the limit the list grows by one; at or above it exactly the first
   * element is removed. The new point is always last and the survivors keep
   * their order.
   */
  lemma AppendedShape(list: seq<Entry>, limit: int, e: Entry)
    ensures var r := Appended(list, limit, e);
            |r| >= 1 && r[|r| - 1] == e
            && (|list| < limit ==> |r| == |list| + 1 && r[..|r| - 1] == list)
            && (|list| >= limit && |list| > 0 ==> |r| == |list| && r[..|r| - 1] == list[1..])
  {
  }

  /** The bounded append never makes a window longer than its limit (or one, for a limit below one). */
  lemma AppendedKeepsBound(list: seq<Entry>, limit: int, e: Entry)
    requires |list| <= Max(limit, 1)
    ensures |Appended(list, limit, e)| <= Max(limit, 1)
  {
  }

  /** The bounded append keeps a window time-ordered when the pushed point is no earlier than every point in it. */
  lemma {:induction false} AppendPreservesOrder(list: seq<Entry>, limit: int, e: Entry)
    requires TimeOrdered(list)
    requires e.Sample? ==> forall k :: 0 <= k < |list| && list[k].Sample? ==> list[k].at <= e.at
    ensures TimeOrdered(Appended(list, limit, e))
  {
    var base := if |list| >= limit then Shift(list) else list;
    assert forall k :: 0 <= k < |base| ==> base[k] in list;
    var r := base + [e];
    forall i, j | 0 <= i < j < |r| && r[i].Sample? && r[j].Sample?
      ensures r[i].at <= r[j].at
    {
      if j < |base| {
        if |list| >= limit && |list| > 0 {
          assert r[i] == list[i + 1] && r[j] == list[j + 1];
        } else {
          assert r[i] == list[i] && r[j] == list[j];
        }
      } else {
        assert r[i] == base[i] && base[i] in list;
      }
    }
  }

  /** onItemAddedRealTime keeps a time-ordered window time-ordered. */
  lemma {:induction false} AdmitPreservesOrder(list: seq<Entry>, limit: int, data: Record, now: int)
    requires TimeOrdered(list)
    requires Admit(list, data, now).Some?
    ensures TimeOrdered(Appended(list, limit, Admit(list, data, now).value))
  {
    var e := Admit(list, data, now).value;
    if e.Sample? {
      var k := LastSampleIndex(list);
      forall m | 0 <= m < |list| && list[m].Sample?
        ensures list[m].at <= e.at
      {
        assert m <= k;
        assert list[k].at <= e.at;
      }
    }
    AppendPreservesOrder(list, limit, e);
  }

  /** onItems' filter distributes over concatenation, so it keeps iteration order. */
  lemma {:induction false} FilteredConcat(a: seq<Record>, b: seq<Record>, range: DateRange)
    ensures Filtered(a + b, range) == Filtered(a, range) + Filtered(b, range)
    decreases |b|
  {
    if |b| == 0 {
      assert a + b == a;
    } else {
      var b' := b[..|b| - 1];
      assert (a + b)[..|a + b| - 1] == a + b';
      assert (a + b)[|a + b| - 1] == b[|b| - 1];
      FilteredConcat(a, b', range);
    }
  }

  /** A single record is kept exactly when it lies in the range. */
  lemma FilteredSingle(r: Record, range: DateRange)
    ensures Filtered([r], range) == if InRange(r, range) then [EntryOf(r)] else []
  {
    assert [r][..0] == [];
  }

  /** Every in-range record's point is kept, and every kept point comes from an in-range record. */
  lemma {:induction false} FilteredMembers(records: seq<Record>, range: DateRange)
    ensures forall i :: 0 <= i < |records| && InRange(records[i], range) ==> EntryOf(records[i]) in Filtered(records, range)
    ensures forall e :: e in Filtered(records, range) ==> exists i :: 0 <= i < |records| && InRange(records[i], range) && EntryOf(records[i]) == e
    decreases |records|
  {
    if |records| > 0 {
      var init := records[..|records| - 1];
      FilteredMembers(init, range);
      forall i | 0 <= i < |init| ensures init[i] == records[i] { }
    }
  }

  /** Widening is idempotent: a range already widened is left alone. */
  lemma WidenedIsIdempotent(range: DateRange)
    ensures Widened(Widened(range)) == Widened(range)
  {
  }
}
