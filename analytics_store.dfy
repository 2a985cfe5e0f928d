/**
 * Usage analytics: one counter per event type, a newest-first event
 * history, and per-day tallies of photos taken, printed and emailed.
 * The current time and today's date are parameters.
 */
module AnalyticsStore {
  import opened Types

  datatype EventType = Capture | Print | Email | Share | Filter | Prop | Retake | Qr

  datatype HistoryEntry = HistoryEntry(timestamp: int, eventType: EventType, details: Option<string>)

  datatype Daily = Daily(photosTaken: nat, photosPrinted: nat, photosEmailed: nat)

  datatype AnalyticsData = AnalyticsData(
    photosTaken: nat,
    photosPrinted: nat,
    photosEmailed: nat,
    photosShared: nat,
    filtersApplied: nat,
    propsUsed: nat,
    retakes: nat,
    qrCodesScanned: nat,
    history: seq<HistoryEntry>,
    dailyStats: map<string, Daily>)

  /** `initialData`: every counter 0, no history, no days. */
  const InitialData := AnalyticsData(0, 0, 0, 0, 0, 0, 0, 0, [], map[])

  const EmptyDay := Daily(0, 0, 0)

  /** The counter an event type drives. */
  function Count(d: AnalyticsData, t: EventType): nat
  {
    match t
    case Capture => d.photosTaken
    case Print => d.photosPrinted
    case Email => d.photosEmailed
    case Share => d.photosShared
    case Filter => d.filtersApplied
    case Prop => d.propsUsed
    case Retake => d.retakes
    case Qr => d.qrCodesScanned
  }

  /** The event types that are also tallied per day. */
  predicate IsDaily(t: EventType)
  {
    t == Capture || t == Print || t == Email
  }

  /** The day's tally an event type drives; 0 for the types not tallied per day. */
  function DayCount(day: Daily, t: EventType): nat
  {
    match t
    case Capture => day.photosTaken
    case Print => day.photosPrinted
    case Email => day.photosEmailed
    case _ => 0
  }

  /** The day's tallies after one more event. */
  function Bump(day: Daily, t: EventType): (r: Daily)
    ensures forall u :: DayCount(r, u) == DayCount(day, u) + (if u == t && IsDaily(t) then 1 else 0)
  {
    match t
    case Capture => day.(photosTaken := day.photosTaken + 1)
    case Print => day.(photosPrinted := day.photosPrinted + 1)
    case Email => day.(photosEmailed := day.photosEmailed + 1)
    case _ => day
  }

  /**
   * The data after `trackEvent(t, details)` at time `now` on the date
   * `today`: exactly one counter rises, the event heads the history, and
   * only today's tallies change, starting from zeros on a new day.
   */
  function Tracked(d: AnalyticsData, t: EventType, details: Option<string>, now: int, today: string): (r: AnalyticsData)
    ensures forall u :: Count(r, u) == Count(d, u) + (if u == t then 1 else 0)
    ensures r.history == [HistoryEntry(now, t, details)] + d.history
    ensures r.dailyStats.Keys == d.dailyStats.Keys + {today}
    ensures r.dailyStats[today] == Bump(if today in d.dailyStats then d.dailyStats[today] else EmptyDay, t)
    ensures forall day :: day in d.dailyStats && day != today ==> r.dailyStats[day] == d.dailyStats[day]
  {
    var before := if today in d.dailyStats then d.dailyStats[today] else EmptyDay;
    AnalyticsData(
      d.photosTaken + (if t == Capture then 1 else 0),
      d.photosPrinted + (if t == Print then 1 else 0),
      d.photosEmailed + (if t == Email then 1 else 0),
      d.photosShared + (if t == Share then 1 else 0),
      d.filtersApplied + (if t == Filter then 1 else 0),
      d.propsUsed + (if t == Prop then 1 else 0),
      d.retakes + (if t == Retake then 1 else 0),
      d.qrCodesScanned + (if t == Qr then 1 else 0),
      [HistoryEntry(now, t, details)] + d.history,
      d.dailyStats[today := Bump(before, t)])
  }

  /** Some date of a non-empty table. */
  ghost function PickDay(m: map<string, Daily>): (k: string)
    requires m != map[]
    ensures k in m
  {
    var k :| k in m; k
  }

  /** The sum over all days of the tally an event type drives. */
  ghost function DaySum(m: map<string, Daily>, t: EventType): nat
    decreases |m|
  {
    if m == map[] then 0
    else
      var k := PickDay(m);
      assert |m - {k}| == |m| - 1;
      DayCount(m[k], t) + DaySum(m - {k}, t)
  }

  /** Any day can be taken out of the sum first. */
  lemma {:induction false} DaySumRemove(m: map<string, Daily>, k: string, t: EventType)
    requires k in m
    ensures DaySum(m, t) == DayCount(m[k], t) + DaySum(m - {k}, t)
    decreases |m|
  {
    var j := PickDay(m);
    if j != k {
      assert |m - {j}| == |m| - 1;
      assert |m - {k}| == |m| - 1;
      DaySumRemove(m - {j}, k, t);
      DaySumRemove(m - {k}, j, t);
      assert m - {j} - {k} == m - {k} - {j};
    }
  }

  /** Each total equals the sum of its per-day tallies. */
  ghost predicate Consistent(d: AnalyticsData)
  {
    forall t :: IsDaily(t) ==> Count(d, t) == DaySum(d.dailyStats, t)
  }

  lemma InitialConsistent()
    ensures Consistent(InitialData)
  {
  }

  /** Tracking an event keeps the totals equal to the per-day sums. */
  lemma TrackedConsistent(d: AnalyticsData, t: EventType, details: Option<string>, now: int, today: string)
    requires Consistent(d)
    ensures Consistent(Tracked(d, t, details, now, today))
  {
    var r := Tracked(d, t, details, now, today);
    var m := d.dailyStats;
    var before := if today in m then m[today] else EmptyDay;
    assert r.dailyStats - {today} == m - {today};
    forall u | IsDaily(u)
      ensures Count(r, u) == DaySum(r.dailyStats, u)
    {
      DaySumRemove(r.dailyStats, today, u);
      if today in m {
        DaySumRemove(m, today, u);
      } else {
        assert m - {today} == m;
      }
    }
  }

  /** The data after a run of events, oldest first. */
  function TrackAll(d: AnalyticsData, events: seq<HistoryEntry>, today: string): AnalyticsData
    decreases |events|
  {
    if events == [] then d
    else TrackAll(Tracked(d, events[0].eventType, events[0].details, events[0].timestamp, today), events[1..], today)
  }

  /** From `initialData`, any run of events leaves every total equal to its per-day sum. */
  lemma {:induction false} TrackAllConsistent(d: AnalyticsData, events: seq<HistoryEntry>, today: string)
    requires Consistent(d)
    ensures Consistent(TrackAll(d, events, today))
    decreases |events|
  {
    if events != [] {
      TrackedConsistent(d, events[0].eventType, events[0].details, events[0].timestamp, today);
      TrackAllConsistent(Tracked(d, events[0].eventType, events[0].details, events[0].timestamp, today), events[1..], today);
    }
  }

  class Store {
    var data: AnalyticsData

    constructor ()
      ensures data == InitialData
    {
      data := InitialData;
    }

    /**
     * `trackEvent`: copies the day table, creates today's entry with zeros if
     * it is missing, and replaces the data with the counted event.
     */
    method TrackEvent(t: EventType, details: Option<string>, now: int, today: string)
      modifies this
      ensures data == Tracked(old(data), t, details, now, today)
    {
      var dailyStats := data.dailyStats;
      if today !in dailyStats {
        dailyStats := dailyStats[today := EmptyDay];
      }
      var day := dailyStats[today];
      assert day == (if today in data.dailyStats then data.dailyStats[today] else EmptyDay);
      assert dailyStats[today := Bump(day, t)] == data.dailyStats[today := Bump(day, t)];
      data := data.(
        photosTaken := if t == Capture then data.photosTaken + 1 else data.photosTaken,
        photosPrinted := if t == Print then data.photosPrinted + 1 else data.photosPrinted,
        photosEmailed := if t == Email then data.photosEmailed + 1 else data.photosEmailed,
        photosShared := if t == Share then data.photosShared + 1 else data.photosShared,
        filtersApplied := if t == Filter then data.filtersApplied + 1 else data.filtersApplied,
        propsUsed := if t == Prop then data.propsUsed + 1 else data.propsUsed,
        retakes := if t == Retake then data.retakes + 1 else data.retakes,
        qrCodesScanned := if t == Qr then data.qrCodesScanned + 1 else data.qrCodesScanned,
        history := [HistoryEntry(now, t, details)] + data.history,
        dailyStats := dailyStats[today := Bump(day, t)]);
    }

    /** `resetStats`. */
    method ResetStats()
      modifies this
      ensures data == InitialData
    {
      data := InitialData;
    }
  }
}
