/**
  The sleep and activity chart's data (`components/dashboard/SleepActivityChart.tsx`): sleep logs
  and step logs merged into one entry per calendar day (the last sleep log of a day wins, step
  counts add up), days in time order, the last seven kept.

  `toLocaleDateString` is the parameter `dateKey`, mapping an instant (milliseconds) to its day label.
*/
module SleepActivityChart {
  import opened Sorting
  import opened Grouping

  datatype SleepLog = SleepLog(timestamp: int, hours: real)
  datatype StepLog = StepLog(timestamp: int, steps: int)

  /** One day of the chart. */
  datatype Entry = Entry(date: string, timestamp: int, sleep: real, steps: int)

  const MaxEntries := 7

  /** Each sleep log tagged with its day. */
  function SleepDays(logs: seq<SleepLog>, dateKey: int -> string): (r: seq<(string, SleepLog)>)
    ensures |r| == |logs| && forall i :: 0 <= i < |logs| ==> r[i] == (dateKey(logs[i].timestamp), logs[i])
  {
    seq(|logs|, i requires 0 <= i < |logs| => (dateKey(logs[i].timestamp), logs[i]))
  }

  /** Each step log tagged with its day. */
  function StepDays(logs: seq<StepLog>, dateKey: int -> string): (r: seq<(string, StepLog)>)
    ensures |r| == |logs| && forall i :: 0 <= i < |logs| ==> r[i] == (dateKey(logs[i].timestamp), logs[i])
  {
    seq(|logs|, i requires 0 <= i < |logs| => (dateKey(logs[i].timestamp), logs[i]))
  }

  /** The sleep value a day ends with: each log overwrites the previous one, none leaves 0. */
  function LastHours(sleeps: seq<SleepLog>): real {
    if sleeps == [] then 0.0 else sleeps[|sleeps| - 1].hours
  }

  function TotalSteps(steps: seq<StepLog>): int {
    if steps == [] then 0 else TotalSteps(steps[..|steps| - 1]) + steps[|steps| - 1].steps
  }

  /**
    The entry of day `k` with sleep logs `sleeps` and step logs `steps`: it is created by the first
    log of the day, and sleep logs are processed before step logs.
  */
  function EntryOf(k: string, sleeps: seq<SleepLog>, steps: seq<StepLog>): Entry
    requires sleeps != [] || steps != []
  {
    Entry(k, if sleeps != [] then sleeps[0].timestamp else steps[0].timestamp, LastHours(sleeps), TotalSteps(steps))
  }

  /**
    `entries` and `order` hold exactly the entries of the tagged sleep logs `xs` and step logs `ys`,
    days in order of creation.
  */
  ghost predicate Merged(entries: map<string, Entry>, order: seq<string>, xs: seq<(string, SleepLog)>, ys: seq<(string, StepLog)>) {
    && order == FirstAppearance(TagsOf(xs) + TagsOf(ys))
    && (forall k :: k in entries <==> k in order)
    && (forall k :: k in entries ==>
          (Members(xs, k) != [] || Members(ys, k) != []) && entries[k] == EntryOf(k, Members(xs, k), Members(ys, k)))
  }

  /** Creating a day on its first log: it starts empty, stamped with `timestamp`; an existing day is kept. */
  function Create(entries: map<string, Entry>, k: string, timestamp: int): (r: map<string, Entry>)
    ensures r.Keys == entries.Keys + {k}
  {
    if k in entries then entries else entries[k := Entry(k, timestamp, 0.0, 0)]
  }

  /** One sleep log: the day's sleep is overwritten with the log's hours. */
  function PutSleep(entries: map<string, Entry>, k: string, log: SleepLog): (r: map<string, Entry>)
    ensures r.Keys == entries.Keys + {k}
  {
    var e := Create(entries, k, log.timestamp);
    e[k := e[k].(sleep := log.hours)]
  }

  /** One step log: the log's steps are added to the day's. */
  function AddSteps(entries: map<string, Entry>, k: string, log: StepLog): (r: map<string, Entry>)
    ensures r.Keys == entries.Keys + {k}
  {
    var e := Create(entries, k, log.timestamp);
    e[k := e[k].(steps := e[k].steps + log.steps)]
  }

  /** Folding one sleep log into entries built from `xs` (and no step logs) gives the entries of `xs + [(k, log)]`. */
  lemma SleepEntries(entries: map<string, Entry>, xs: seq<(string, SleepLog)>, k: string, log: SleepLog)
    requires forall j :: j in entries ==> Members(xs, j) != [] && entries[j] == EntryOf(j, Members(xs, j), [])
    requires k !in entries ==> Members(xs, k) == []
    ensures var xs2, entries2 := xs + [(k, log)], PutSleep(entries, k, log);
      forall j :: j in entries2 ==> Members(xs2, j) != [] && entries2[j] == EntryOf(j, Members(xs2, j), [])
  {
    var xs2, entries2 := xs + [(k, log)], PutSleep(entries, k, log);
    assert xs2[..|xs2| - 1] == xs;
    forall j | j in entries2
      ensures Members(xs2, j) != [] && entries2[j] == EntryOf(j, Members(xs2, j), [])
    {
      if j != k {
        assert Members(xs2, j) == Members(xs, j);
      } else {
        assert Members(xs2, k) == Members(xs, k) + [log];
      }
    }
  }

  /** Folding one step log into entries built from `xs` and `ys` gives the entries of `xs` and `ys + [(k, log)]`. */
  lemma StepEntries(entries: map<string, Entry>, xs: seq<(string, SleepLog)>, ys: seq<(string, StepLog)>, k: string, log: StepLog)
    requires forall j :: j in entries ==>
      (Members(xs, j) != [] || Members(ys, j) != []) && entries[j] == EntryOf(j, Members(xs, j), Members(ys, j))
    requires k !in entries ==> Members(xs, k) == [] && Members(ys, k) == []
    ensures var ys2, entries2 := ys + [(k, log)], AddSteps(entries, k, log);
      forall j :: j in entries2 ==>
        (Members(xs, j) != [] || Members(ys2, j) != []) && entries2[j] == EntryOf(j, Members(xs, j), Members(ys2, j))
  {
    var ys2, entries2 := ys + [(k, log)], AddSteps(entries, k, log);
    assert ys2[..|ys2| - 1] == ys;
    forall j | j in entries2
      ensures (Members(xs, j) != [] || Members(ys2, j) != []) && entries2[j] == EntryOf(j, Members(xs, j), Members(ys2, j))
    {
      if j != k {
        assert Members(ys2, j) == Members(ys, j);
      } else {
        var ms := Members(ys, k);
        assert Members(ys2, k) == ms + [log];
        assert (ms + [log])[..|ms|] == ms;
        assert TotalSteps(ms + [log]) == TotalSteps(ms) + log.steps;
        if k in entries {
          assert entries2[k] == entries[k].(steps := entries[k].steps + log.steps);
        } else {
          assert ms == [] && Members(xs, k) == [];
          assert entries2[k] == Entry(k, log.timestamp, 0.0, log.steps);
        }
      }
    }
  }

  lemma SleepStep(entries: map<string, Entry>, order: seq<string>, xs: seq<(string, SleepLog)>, k: string, log: SleepLog)
    requires Merged(entries, order, xs, [])
    ensures Merged(PutSleep(entries, k, log), if k in entries then order else order + [k], xs + [(k, log)], [])
  {
    var xs2, entries2 := xs + [(k, log)], PutSleep(entries, k, log);
    var order2 := if k in entries then order else order + [k];
    var none: seq<(string, StepLog)> := [];
    assert TagsOf(xs) + TagsOf(none) == TagsOf(xs);
    assert TagsOf(xs2) + TagsOf(none) == TagsOf(xs) + [k];
    OrderStep(entries, order, TagsOf(xs), k, entries2);
    MembersNonEmpty(xs, k);
    FirstAppearanceSame(TagsOf(xs), k);
    if k !in entries {
      assert k !in TagsOf(xs);
    }
    SleepEntries(entries, xs, k, log);
    assert order2 == FirstAppearance(TagsOf(xs2) + TagsOf(none));
    assert forall j :: j in entries2 <==> j in order2;
    assert forall j :: j in entries2 ==>
      (Members(xs2, j) != [] || Members(none, j) != []) && entries2[j] == EntryOf(j, Members(xs2, j), Members(none, j));
    assert Merged(entries2, order2, xs2, none);
  }

  lemma StepStep(entries: map<string, Entry>, order: seq<string>, xs: seq<(string, SleepLog)>, ys: seq<(string, StepLog)>, k: string, log: StepLog)
    requires Merged(entries, order, xs, ys)
    ensures Merged(AddSteps(entries, k, log), if k in entries then order else order + [k], xs, ys + [(k, log)])
  {
    var ys2, entries2 := ys + [(k, log)], AddSteps(entries, k, log);
    var order2 := if k in entries then order else order + [k];
    var tags := TagsOf(xs) + TagsOf(ys);
    assert TagsOf(xs) + TagsOf(ys2) == tags + [k];
    OrderStep(entries, order, tags, k, entries2);
    MembersNonEmpty(xs, k);
    MembersNonEmpty(ys, k);
    FirstAppearanceSame(tags, k);
    if k !in entries {
      assert k !in tags;
      assert k !in TagsOf(xs) && k !in TagsOf(ys);
    }
    StepEntries(entries, xs, ys, k, log);
    assert order2 == FirstAppearance(TagsOf(xs) + TagsOf(ys2));
    assert forall j :: j in entries2 <==> j in order2;
    assert Merged(entries2, order2, xs, ys2);
  }

  /**
    The two `forEach` loops filling `dataMap`: all sleep logs first, then all step logs. `order`
    lists the days as they were created.
  */
  method BuildDays(sleepLogs: seq<SleepLog>, stepLogs: seq<StepLog>, dateKey: int -> string)
    returns (entries: map<string, Entry>, order: seq<string>)
    ensures Merged(entries, order, SleepDays(sleepLogs, dateKey), StepDays(stepLogs, dateKey))
  {
    entries, order := map[], [];
    for i := 0 to |sleepLogs|
      invariant Merged(entries, order, SleepDays(sleepLogs[..i], dateKey), [])
    {
      var log := sleepLogs[i];
      var k := dateKey(log.timestamp);
      assert SleepDays(sleepLogs[..i + 1], dateKey) == SleepDays(sleepLogs[..i], dateKey) + [(k, log)];
      SleepStep(entries, order, SleepDays(sleepLogs[..i], dateKey), k, log);
      if k !in entries {
        order := order + [k];
      }
      entries := PutSleep(entries, k, log);
    }
    assert sleepLogs[..|sleepLogs|] == sleepLogs;
    ghost var xs := SleepDays(sleepLogs, dateKey);
    assert StepDays(stepLogs[..0], dateKey) == [];
    for i := 0 to |stepLogs|
      invariant Merged(entries, order, xs, StepDays(stepLogs[..i], dateKey))
    {
      var log := stepLogs[i];
      var k := dateKey(log.timestamp);
      assert StepDays(stepLogs[..i + 1], dateKey) == StepDays(stepLogs[..i], dateKey) + [(k, log)];
      StepStep(entries, order, xs, StepDays(stepLogs[..i], dateKey), k, log);
      if k !in entries {
        order := order + [k];
      }
      entries := AddSteps(entries, k, log);
    }
    assert stepLogs[..|stepLogs|] == stepLogs;
  }

  /** The days of the chart, in the order their entries were created. */
  function DayOrder(sleepLogs: seq<SleepLog>, stepLogs: seq<StepLog>, dateKey: int -> string): seq<string> {
    FirstAppearance(TagsOf(SleepDays(sleepLogs, dateKey)) + TagsOf(StepDays(stepLogs, dateKey)))
  }

  /** A day that appears among the tags has a log of its own. */
  lemma DayHasLogs(sleepLogs: seq<SleepLog>, stepLogs: seq<StepLog>, dateKey: int -> string, i: nat)
    requires i < |DayOrder(sleepLogs, stepLogs, dateKey)|
    ensures var k := DayOrder(sleepLogs, stepLogs, dateKey)[i];
      Members(SleepDays(sleepLogs, dateKey), k) != [] || Members(StepDays(stepLogs, dateKey), k) != []
  {
    var xs, ys := SleepDays(sleepLogs, dateKey), StepDays(stepLogs, dateKey);
    var k := DayOrder(sleepLogs, stepLogs, dateKey)[i];
    FirstAppearanceWithin(TagsOf(xs) + TagsOf(ys), i);
    MembersNonEmpty(xs, k);
    MembersNonEmpty(ys, k);
  }

  /** `Object.values(dataMap)`: one entry per day, in the order the days were created. */
  function DailyEntries(sleepLogs: seq<SleepLog>, stepLogs: seq<StepLog>, dateKey: int -> string): (r: seq<Entry>)
    ensures var days := DayOrder(sleepLogs, stepLogs, dateKey);
      |r| == |days| && forall i :: 0 <= i < |r| ==> r[i].date == days[i]
  {
    var xs, ys := SleepDays(sleepLogs, dateKey), StepDays(stepLogs, dateKey);
    var days := DayOrder(sleepLogs, stepLogs, dateKey);
    seq(|days|, i requires 0 <= i < |days| =>
      DayHasLogs(sleepLogs, stepLogs, dateKey, i);
      EntryOf(days[i], Members(xs, days[i]), Members(ys, days[i])))
  }

  function EntryTime(e: Entry): int {
    e.timestamp
  }

  /** The chart's data: the daily entries sorted by time, the last seven kept. */
  function ChartData(sleepLogs: seq<SleepLog>, stepLogs: seq<StepLog>, dateKey: int -> string): seq<Entry> {
    TakeLast(SortBy(DailyEntries(sleepLogs, stepLogs, dateKey), EntryTime), MaxEntries)
  }

  /** The `data` memo: the two loops, then `Object.values`, the sort and the slice. */
  method ComputeData(sleepLogs: seq<SleepLog>, stepLogs: seq<StepLog>, dateKey: int -> string) returns (data: seq<Entry>)
    ensures data == ChartData(sleepLogs, stepLogs, dateKey)
  {
    var entries, order := BuildDays(sleepLogs, stepLogs, dateKey);
    ghost var xs, ys := SleepDays(sleepLogs, dateKey), StepDays(stepLogs, dateKey);
    ghost var daily := DailyEntries(sleepLogs, stepLogs, dateKey);
    var values := [];
    for i := 0 to |order|
      invariant values == daily[..i]
    {
      DayHasLogs(sleepLogs, stepLogs, dateKey, i);
      values := values + [entries[order[i]]];
    }
    assert values == daily;
    data := TakeLast(SortBy(values, EntryTime), MaxEntries);
  }

  // ---------------------------------------------------------------------------------------------
  // Properties
  // ---------------------------------------------------------------------------------------------

  /**
    Each entry is a day with at least one log: its sleep is the hours of the day's last sleep log
    (0 without one), its steps the sum of the day's step logs (0 without one), and its timestamp is
    that of the day's first sleep log, or of its first step log when it has no sleep log.
  */
  lemma {:induction false} EntryValues(sleepLogs: seq<SleepLog>, stepLogs: seq<StepLog>, dateKey: int -> string, i: nat)
    requires i < |DailyEntries(sleepLogs, stepLogs, dateKey)|
    ensures var e := DailyEntries(sleepLogs, stepLogs, dateKey)[i];
      var sleeps := Members(SleepDays(sleepLogs, dateKey), e.date);
      var steps := Members(StepDays(stepLogs, dateKey), e.date);
      && (sleeps != [] || steps != [])
      && (sleeps == [] ==> e.sleep == 0.0 && e.timestamp == steps[0].timestamp)
      && (sleeps != [] ==> e.sleep == sleeps[|sleeps| - 1].hours && e.timestamp == sleeps[0].timestamp)
      && (steps == [] ==> e.steps == 0)
      && e.steps == TotalSteps(steps)
  {
    DayHasLogs(sleepLogs, stepLogs, dateKey, i);
  }

  /** A later sleep log of the same day overwrites that day's sleep value, whatever came before. */
  lemma LaterSleepOverwrites(sleepLogs: seq<SleepLog>, log: SleepLog, dateKey: int -> string)
    ensures LastHours(Members(SleepDays(sleepLogs + [log], dateKey), dateKey(log.timestamp))) == log.hours
  {
    assert SleepDays(sleepLogs + [log], dateKey)[..|sleepLogs|] == SleepDays(sleepLogs, dateKey);
  }

  /** A step log adds its steps to its own day and leaves every other day as it was. */
  lemma StepsAccumulate(stepLogs: seq<StepLog>, log: StepLog, dateKey: int -> string, k: string)
    ensures var before := TotalSteps(Members(StepDays(stepLogs, dateKey), k));
      TotalSteps(Members(StepDays(stepLogs + [log], dateKey), k))
        == if k == dateKey(log.timestamp) then before + log.steps else before
  {
    var ys, ys2 := StepDays(stepLogs, dateKey), StepDays(stepLogs + [log], dateKey);
    var ms := Members(ys, k);
    assert ys2[..|ys2| - 1] == ys;
    assert ys2[|ys2| - 1] == (dateKey(log.timestamp), log);
    if k == dateKey(log.timestamp) {
      assert Members(ys2, k) == ms + [log];
      assert (ms + [log])[..|ms|] == ms;
    } else {
      assert Members(ys2, k) == ms;
    }
  }

  /** No two entries are the same day. */
  lemma OneEntryPerDay(sleepLogs: seq<SleepLog>, stepLogs: seq<StepLog>, dateKey: int -> string)
    ensures var r := DailyEntries(sleepLogs, stepLogs, dateKey);
      forall i, j :: 0 <= i < j < |r| ==> r[i].date != r[j].date
  {
    var days := DayOrder(sleepLogs, stepLogs, dateKey);
    assert Distinct(days);
  }

  /** Every day with a log has an entry. */
  lemma EveryDayHasEntry(sleepLogs: seq<SleepLog>, stepLogs: seq<StepLog>, dateKey: int -> string)
    ensures var days := DayOrder(sleepLogs, stepLogs, dateKey);
      && (forall i :: 0 <= i < |sleepLogs| ==> dateKey(sleepLogs[i].timestamp) in days)
      && (forall i :: 0 <= i < |stepLogs| ==> dateKey(stepLogs[i].timestamp) in days)
  {
    var xs, ys := SleepDays(sleepLogs, dateKey), StepDays(stepLogs, dateKey);
    var tags := TagsOf(xs) + TagsOf(ys);
    forall i | 0 <= i < |sleepLogs|
      ensures dateKey(sleepLogs[i].timestamp) in FirstAppearance(tags)
    {
      FirstAppearanceCovers(tags, i);
    }
    forall i | 0 <= i < |stepLogs|
      ensures dateKey(stepLogs[i].timestamp) in FirstAppearance(tags)
    {
      FirstAppearanceCovers(tags, |xs| + i);
    }
  }
}
