/**
 * The 24-hour execution trend (components/ExecutionTrendChart.tsx): the
 * aggregation of the fetched executions into twelve two-hour buckets in
 * local time, successes and failures apart, oldest bucket first.
 *
 * Time is an integer number of milliseconds since the epoch; local time is
 * that plus a fixed offset (`zone`), so daylight-saving changes are not
 * modelled. A bucket's key, the local date and even hour it starts at, is
 * represented by its local two-hour slot number, which determines it.
 */
module ExecutionTrendChart {
  import opened Common
  import opened Types

  // ----- local time (lines 76-81) -----

  const HourMs: int := 60 * 60 * 1000
  const TwoHoursMs: int := 2 * HourMs
  const DayMs: int := 24 * HourMs
  const BucketCount: nat := 12

  /** The local two-hour slot a time falls in. */
  function Slot(t: int, zone: int): int {
    (t + zone) / TwoHoursMs
  }

  /** The local hour of the day (0 to 23). */
  function LocalHour(t: int, zone: int): (h: int)
    ensures 0 <= h < 24
  {
    ((t + zone) / HourMs) % 24
  }

  /** The start of the current local two-hour slot. */
  function RoundedNow(now: int, zone: int): (r: int)
    ensures r <= now < r + TwoHoursMs
    ensures (r + zone) % TwoHoursMs == 0
    ensures Slot(r, zone) == Slot(now, zone)
  {
    now - (now + zone) % TwoHoursMs
  }

  /** The first hour of a slot, which labels its bucket. */
  function SlotHour(slot: int): (h: int)
    ensures 0 <= h < 24 && h % 2 == 0
  {
    (slot % 12) * 2
  }

  /** A time's local hour rounded down to even is the first hour of its slot. */
  lemma SlotHourOfTime(t: int, zone: int)
    ensures (LocalHour(t, zone) / 2) * 2 == SlotHour(Slot(t, zone))
  {
    var x := t + zone;
    var h := x / HourMs;
    assert x / TwoHoursMs == h / 2;
    assert (h % 24) / 2 == (h / 2) % 12;
  }

  /** The bucket label: the slot's hour as two decimal digits, then ":00". */
  function HourLabel(slot: int): (text: string)
    ensures |text| == 5 && text[2..] == ":00"
    ensures '0' <= text[0] <= '9' && '0' <= text[1] <= '9'
    ensures (text[0] as int - '0' as int) * 10 + (text[1] as int - '0' as int) == SlotHour(slot)
  {
    var h := SlotHour(slot);
    [DigitChar(h / 10), DigitChar(h % 10)] + ":00"
  }

  // ----- the aggregation (lines 74-146) -----

  /**
   * An execution the chart looks at: it has a start time between 24 hours
   * before the current slot's start and now.
   */
  predicate InWindow(e: RecentExecution, now: int, zone: int) {
    e.startedAt.Some? && RoundedNow(now, zone) - DayMs <= e.startedAt.value <= now
  }

  /** An execution that counts in the bucket of `slot`, in the success column or the failure column. */
  predicate CountsIn(e: RecentExecution, now: int, zone: int, slot: int, success: bool) {
    InWindow(e, now, zone) && Slot(e.startedAt.value, zone) == slot && (e.status == Succeeded <==> success)
  }

  /** How many executions count in one column of one bucket. */
  function Tally(data: seq<RecentExecution>, now: int, zone: int, slot: int, success: bool): (n: nat)
    ensures n <= |data|
  {
    if data == [] then 0
    else Tally(data[..|data| - 1], now, zone, slot, success) +
         (if CountsIn(data[|data| - 1], now, zone, slot, success) then 1 else 0)
  }

  /** One point of the chart. */
  datatype HourlyRow = HourlyRow(hour: string, successful: nat, failed: nat)

  datatype Counts = Counts(successful: nat, failed: nat)

  /** The first slot shown: eleven slots before the current one. */
  function FirstSlot(now: int, zone: int): int {
    Slot(now, zone) - (BucketCount - 1)
  }

  /** The twelve empty buckets: the current slot and the eleven before it. */
  method EmptyBuckets(now: int, zone: int) returns (buckets: map<int, Counts>)
    ensures forall s :: s in buckets <==> FirstSlot(now, zone) <= s <= Slot(now, zone)
    ensures forall s :: s in buckets ==> buckets[s] == Counts(0, 0)
  {
    var roundedNow := RoundedNow(now, zone);
    var current := Slot(now, zone);
    buckets := map[];
    var i := 0;
    while i < BucketCount
      invariant 0 <= i <= BucketCount
      invariant forall s :: s in buckets <==> current - i < s <= current
      invariant forall s :: s in buckets ==> buckets[s] == Counts(0, 0)
    {
      var bucketTime := roundedNow - i * TwoHoursMs;
      assert Slot(bucketTime, zone) == current - i;
      buckets := buckets[Slot(bucketTime, zone) := Counts(0, 0)];
      i := i + 1;
    }
  }

  /**
   * Counts each execution in the window into the bucket of its slot, in
   * the success column when its status is success and in the failure
   * column otherwise; an execution whose slot has no bucket is skipped.
   */
  method CountExecutions(data: seq<RecentExecution>, now: int, zone: int, empty: map<int, Counts>)
    returns (buckets: map<int, Counts>)
    requires forall s :: s in empty ==> empty[s] == Counts(0, 0)
    ensures buckets.Keys == empty.Keys
    ensures forall s :: s in buckets ==>
      buckets[s] == Counts(Tally(data, now, zone, s, true), Tally(data, now, zone, s, false))
  {
    var last24Hours := RoundedNow(now, zone) - DayMs;
    buckets := empty;
    var k := 0;
    while k < |data|
      invariant 0 <= k <= |data|
      invariant buckets.Keys == empty.Keys
      invariant forall s :: s in buckets ==>
        buckets[s] == Counts(Tally(data[..k], now, zone, s, true), Tally(data[..k], now, zone, s, false))
    {
      var execution := data[k];
      assert data[..k + 1][..k] == data[..k];
      if execution.startedAt.Some? {
        var t := execution.startedAt.value;
        if !(t < last24Hours || t > now) {
          var slot := Slot(t, zone);
          if slot in buckets {
            var counts := buckets[slot];
            if execution.status == Succeeded {
              buckets := buckets[slot := counts.(successful := counts.successful + 1)];
            } else {
              buckets := buckets[slot := counts.(failed := counts.failed + 1)];
            }
          }
        }
      }
      k := k + 1;
    }
    assert data[..|data|] == data;
  }

  /**
   * The chart's points: twelve buckets, counted, then listed oldest first;
   * row j is slot FirstSlot + j with its label and both tallies.
   */
  method HourlyData(data: seq<RecentExecution>, now: int, zone: int) returns (rows: seq<HourlyRow>)
    ensures |rows| == BucketCount
    ensures forall j :: 0 <= j < |rows| ==>
      rows[j] == HourlyRow(HourLabel(FirstSlot(now, zone) + j),
                           Tally(data, now, zone, FirstSlot(now, zone) + j, true),
                           Tally(data, now, zone, FirstSlot(now, zone) + j, false))
  {
    var current := Slot(now, zone);
    var empty := EmptyBuckets(now, zone);
    var buckets := CountExecutions(data, now, zone, empty);
    // The map lists the current slot first; putting each entry in front reverses that order.
    rows := [];
    var j := 0;
    while j < BucketCount
      invariant 0 <= j <= BucketCount && |rows| == j
      invariant forall m :: 0 <= m < j ==>
        rows[m] == HourlyRow(HourLabel(current - j + 1 + m),
                             Tally(data, now, zone, current - j + 1 + m, true),
                             Tally(data, now, zone, current - j + 1 + m, false))
    {
      var counts := buckets[current - j];
      rows := [HourlyRow(HourLabel(current - j), counts.successful, counts.failed)] + rows;
      j := j + 1;
    }
  }

  // ----- what the chart adds up to -----

  /** An execution that appears in some bucket: in the window and in one of the twelve slots. */
  predicate InChart(e: RecentExecution, now: int, zone: int) {
    InWindow(e, now, zone) && FirstSlot(now, zone) <= Slot(e.startedAt.value, zone) <= Slot(now, zone)
  }

  /** How many executions appear in the chart. */
  function ChartTotal(data: seq<RecentExecution>, now: int, zone: int): (n: nat)
    ensures n <= |data|
  {
    if data == [] then 0
    else ChartTotal(data[..|data| - 1], now, zone) + (if InChart(data[|data| - 1], now, zone) then 1 else 0)
  }

  /** Both columns of the `n` slots from `first` on, added up. */
  function SlotsTotal(data: seq<RecentExecution>, now: int, zone: int, first: int, n: nat): nat {
    if n == 0 then 0
    else SlotsTotal(data, now, zone, first, n - 1) +
         Tally(data, now, zone, first + n - 1, true) + Tally(data, now, zone, first + n - 1, false)
  }

  /** Adding one execution to the data adds one to the slots' total exactly when its slot is among them. */
  lemma {:induction false} SlotsTotalSnoc(data: seq<RecentExecution>, e: RecentExecution, now: int, zone: int, first: int, n: nat)
    ensures SlotsTotal(data + [e], now, zone, first, n) ==
      SlotsTotal(data, now, zone, first, n) +
      (if InWindow(e, now, zone) && first <= Slot(e.startedAt.value, zone) < first + n then 1 else 0)
  {
    var extended := data + [e];
    assert extended[..|extended| - 1] == data;
    if n > 0 {
      SlotsTotalSnoc(data, e, now, zone, first, n - 1);
    }
  }

  lemma {:induction false} SlotsTotalEmpty(now: int, zone: int, first: int, n: nat)
    ensures SlotsTotal([], now, zone, first, n) == 0
  {
    if n > 0 {
      SlotsTotalEmpty(now, zone, first, n - 1);
    }
  }

  /**
   * The twelve buckets together hold every execution of the window whose
   * slot is shown, each exactly once, in the column of its status.
   */
  lemma {:induction false} BucketsAddUp(data: seq<RecentExecution>, now: int, zone: int)
    ensures SlotsTotal(data, now, zone, FirstSlot(now, zone), BucketCount) == ChartTotal(data, now, zone)
  {
    if data == [] {
      SlotsTotalEmpty(now, zone, FirstSlot(now, zone), BucketCount);
    } else {
      var front := data[..|data| - 1];
      var e := data[|data| - 1];
      assert data == front + [e];
      assert ChartTotal(data, now, zone) == ChartTotal(front, now, zone) + (if InChart(e, now, zone) then 1 else 0);
      BucketsAddUp(front, now, zone);
      SlotsTotalSnoc(front, e, now, zone, FirstSlot(now, zone), BucketCount);
    }
  }

  /** So the chart never shows more executions than were fetched. */
  lemma ChartNeverOvercounts(data: seq<RecentExecution>, now: int, zone: int)
    ensures SlotsTotal(data, now, zone, FirstSlot(now, zone), BucketCount) <= |data|
  {
    BucketsAddUp(data, now, zone);
  }

  /**
   * The window reaches back 24 hours from the current slot's start, but
   * the oldest bucket starts 22 hours before it: an execution in the first
   * two hours of the window falls in the slot just before the oldest
   * bucket and is counted nowhere.
   */
  lemma OldestTwoHoursAreDropped(e: RecentExecution, now: int, zone: int)
    requires InWindow(e, now, zone)
    requires e.startedAt.value < RoundedNow(now, zone) - DayMs + TwoHoursMs
    ensures Slot(e.startedAt.value, zone) == FirstSlot(now, zone) - 1
    ensures !InChart(e, now, zone)
  {
  }

  /** Every other execution of the window is in the chart. */
  lemma RestOfWindowIsShown(e: RecentExecution, now: int, zone: int)
    requires InWindow(e, now, zone)
    requires e.startedAt.value >= RoundedNow(now, zone) - DayMs + TwoHoursMs
    ensures InChart(e, now, zone)
  {
  }
}
