/**
  The stress chart's data (`components/dashboard/StressLevelsChart.tsx`): stress logs grouped by
  calendar day, each day's mean level, days in time order, the last seven kept.

  `toLocaleDateString` is the parameter `dateKey`, mapping an instant (milliseconds) to its day label.
*/
module StressLevelsChart {
  import opened Sorting
  import opened Grouping

  datatype StressLog = StressLog(timestamp: int, level: real)

  /** The accumulator kept per day. */
  datatype Group = Group(sum: real, count: nat, timestamp: int)

  datatype Point = Point(name: string, level: real, timestamp: int)

  const MaxPoints := 7

  /** Each log tagged with its day. */
  function Days(logs: seq<StressLog>, dateKey: int -> string): (r: seq<(string, StressLog)>)
    ensures |r| == |logs| && forall i :: 0 <= i < |logs| ==> r[i] == (dateKey(logs[i].timestamp), logs[i])
  {
    seq(|logs|, i requires 0 <= i < |logs| => (dateKey(logs[i].timestamp), logs[i]))
  }

  function SumLevels(logs: seq<StressLog>): real {
    if logs == [] then 0.0 else SumLevels(logs[..|logs| - 1]) + logs[|logs| - 1].level
  }

  /** What the accumulator holds for a day once all of its logs are folded in. */
  function GroupOf(members: seq<StressLog>): Group
    requires members != []
  {
    Group(SumLevels(members), |members|, members[0].timestamp)
  }

  /** `acc` and `order` hold exactly the groups of the tagged logs `xs`, days in order of creation. */
  ghost predicate Accumulated(acc: map<string, Group>, order: seq<string>, xs: seq<(string, StressLog)>) {
    && order == FirstAppearance(TagsOf(xs))
    && (forall k :: k in acc <==> k in order)
    && (forall k :: k in acc ==> Members(xs, k) != [] && acc[k] == GroupOf(Members(xs, k)))
  }

  /** One step of the `reduce`: create the day's entry if it is new, then add the log to it. */
  function Fold(acc: map<string, Group>, k: string, log: StressLog): (r: map<string, Group>)
    ensures r.Keys == acc.Keys + {k}
  {
    var acc1 := if k in acc then acc else acc[k := Group(0.0, 0, log.timestamp)];
    acc1[k := acc1[k].(sum := acc1[k].sum + log.level, count := acc1[k].count + 1)]
  }

  lemma FoldOrder(acc: map<string, Group>, order: seq<string>, xs: seq<(string, StressLog)>, k: string, log: StressLog)
    requires order == FirstAppearance(TagsOf(xs))
    requires forall j :: j in acc <==> j in order
    ensures (if k in acc then order else order + [k]) == FirstAppearance(TagsOf(xs + [(k, log)]))
  {
    var ys := xs + [(k, log)];
    assert TagsOf(ys) == TagsOf(xs) + [k];
    assert TagsOf(ys)[..|xs|] == TagsOf(xs);
  }

  lemma FoldGroup(acc: map<string, Group>, xs: seq<(string, StressLog)>, k: string, log: StressLog)
    requires forall j :: j in acc ==> Members(xs, j) != [] && acc[j] == GroupOf(Members(xs, j))
    requires k !in acc ==> Members(xs, k) == []
    ensures var ys := xs + [(k, log)];
      forall j :: j in Fold(acc, k, log) ==> Members(ys, j) != [] && Fold(acc, k, log)[j] == GroupOf(Members(ys, j))
  {
    var ys := xs + [(k, log)];
    var acc2 := Fold(acc, k, log);
    assert ys[..|ys| - 1] == xs;
    forall j | j in acc2
      ensures Members(ys, j) != [] && acc2[j] == GroupOf(Members(ys, j))
    {
      if j != k {
        assert Members(ys, j) == Members(xs, j);
      } else {
        var ms := Members(xs, k);
        assert Members(ys, k) == ms + [log];
        assert (ms + [log])[..|ms|] == ms;
        assert SumLevels(ms + [log]) == SumLevels(ms) + log.level;
      }
    }
  }

  lemma FoldStep(acc: map<string, Group>, order: seq<string>, xs: seq<(string, StressLog)>, k: string, log: StressLog)
    requires Accumulated(acc, order, xs)
    ensures Accumulated(Fold(acc, k, log), if k in acc then order else order + [k], xs + [(k, log)])
  {
    FoldOrder(acc, order, xs, k, log);
    MembersNonEmpty(xs, k);
    FirstAppearanceSame(TagsOf(xs), k);
    if k !in acc {
      assert k !in TagsOf(xs);
    }
    FoldGroup(acc, xs, k, log);
    var acc2, order2, ys := Fold(acc, k, log), if k in acc then order else order + [k], xs + [(k, log)];
    forall j
      ensures j in acc2 <==> j in order2
    {
      assert j in order2 <==> j in order || j == k;
    }
    assert order2 == FirstAppearance(TagsOf(ys));
    assert forall j :: j in acc2 ==> Members(ys, j) != [] && acc2[j] == GroupOf(Members(ys, j));
    assert Accumulated(acc2, order2, ys);
  }

  /**
    The `reduce`: one pass over the logs creating a day's entry at its first log and adding every
    log's level to its day. `order` lists the days as they were created.
  */
  method Accumulate(logs: seq<StressLog>, dateKey: int -> string) returns (acc: map<string, Group>, order: seq<string>)
    ensures Accumulated(acc, order, Days(logs, dateKey))
  {
    acc, order := map[], [];
    for i := 0 to |logs|
      invariant Accumulated(acc, order, Days(logs[..i], dateKey))
    {
      var log := logs[i];
      var k := dateKey(log.timestamp);
      assert Days(logs[..i + 1], dateKey) == Days(logs[..i], dateKey) + [(k, log)];
      FoldStep(acc, order, Days(logs[..i], dateKey), k, log);
      if k !in acc {
        order := order + [k];
      }
      acc := Fold(acc, k, log);
    }
    assert logs[..|logs|] == logs;
  }

  function Average(g: Group): real
    requires g.count > 0
  {
    g.sum / g.count as real
  }

  /** The chart point of a day (`Object.entries(...).map(...)`). */
  function PointOf(name: string, members: seq<StressLog>): Point
    requires members != []
  {
    Point(name, Average(GroupOf(members)), members[0].timestamp)
  }

  /** One point per day, in the order the days were first seen. */
  function DailyPoints(logs: seq<StressLog>, dateKey: int -> string): (r: seq<Point>)
    ensures var days := FirstAppearance(TagsOf(Days(logs, dateKey)));
      |r| == |days| && forall i :: 0 <= i < |r| ==> r[i].name == days[i]
  {
    var xs := Days(logs, dateKey);
    var days := FirstAppearance(TagsOf(xs));
    seq(|days|, i requires 0 <= i < |days| =>
      FirstAppearanceWithin(TagsOf(xs), i);
      MembersNonEmpty(xs, days[i]);
      PointOf(days[i], Members(xs, days[i])))
  }

  function PointTime(p: Point): int {
    p.timestamp
  }

  /** The chart's data: the daily points sorted by time, the last seven kept. */
  function ChartData(logs: seq<StressLog>, dateKey: int -> string): seq<Point> {
    TakeLast(SortBy(DailyPoints(logs, dateKey), PointTime), MaxPoints)
  }

  /** The `i`-th daily point is the point of the `i`-th day seen, over that day's logs. */
  lemma DailyPointAt(logs: seq<StressLog>, dateKey: int -> string, i: nat)
    requires i < |FirstAppearance(TagsOf(Days(logs, dateKey)))|
    ensures var xs := Days(logs, dateKey);
      var k := FirstAppearance(TagsOf(xs))[i];
      && Members(xs, k) != []
      && i < |DailyPoints(logs, dateKey)|
      && DailyPoints(logs, dateKey)[i] == PointOf(k, Members(xs, k))
  {
    var xs := Days(logs, dateKey);
    FirstAppearanceWithin(TagsOf(xs), i);
    MembersNonEmpty(xs, FirstAppearance(TagsOf(xs))[i]);
  }

  /** The `data` memo: the accumulation, then the map/sort/slice pipeline. */
  method ComputeData(logs: seq<StressLog>, dateKey: int -> string) returns (data: seq<Point>)
    ensures data == ChartData(logs, dateKey)
  {
    var acc, order := Accumulate(logs, dateKey);
    ghost var xs := Days(logs, dateKey);
    ghost var daily := DailyPoints(logs, dateKey);
    assert |daily| == |order|;
    var points := [];
    for i := 0 to |order|
      invariant points == daily[..i]
    {
      DailyPointAt(logs, dateKey, i);
      var g := acc[order[i]];
      assert g == GroupOf(Members(xs, order[i]));
      points := points + [Point(order[i], g.sum / g.count as real, g.timestamp)];
    }
    assert points == daily;
    data := TakeLast(SortBy(points, PointTime), MaxPoints);
  }

  // ---------------------------------------------------------------------------------------------
  // Properties
  // ---------------------------------------------------------------------------------------------

  /** Every log is counted in exactly one day: the days' counts add up to the number of logs. */
  lemma EveryLogCountedOnce(logs: seq<StressLog>, dateKey: int -> string)
    ensures var xs := Days(logs, dateKey);
      TotalSize(xs, FirstAppearance(TagsOf(xs))) == |logs|
    ensures forall i :: 0 <= i < |logs| ==> logs[i] in Members(Days(logs, dateKey), dateKey(logs[i].timestamp))
  {
    var xs := Days(logs, dateKey);
    GroupsPartition(xs);
    forall i | 0 <= i < |logs|
      ensures logs[i] in Members(xs, dateKey(logs[i].timestamp))
    {
      assert xs == xs[..i] + [xs[i]] + xs[i + 1..];
      MembersAppend(xs[..i] + [xs[i]], xs[i + 1..], dateKey(logs[i].timestamp));
      MembersAppend(xs[..i], [xs[i]], dateKey(logs[i].timestamp));
    }
  }

  lemma {:induction false} SumLevelsBounds(logs: seq<StressLog>, lo: real, hi: real)
    requires forall i :: 0 <= i < |logs| ==> lo <= logs[i].level <= hi
    ensures lo * |logs| as real <= SumLevels(logs) <= hi * |logs| as real
  {
    if logs != [] {
      SumLevelsBounds(logs[..|logs| - 1], lo, hi);
    }
  }

  /** A day's level is the mean of its logs, so it lies between their least and greatest level. */
  lemma AverageWithinRange(members: seq<StressLog>, lo: real, hi: real)
    requires members != []
    requires forall i :: 0 <= i < |members| ==> lo <= members[i].level <= hi
    ensures lo <= PointOf("", members).level <= hi
  {
    var n := |members| as real;
    var s := SumLevels(members);
    SumLevelsBounds(members, lo, hi);
    assert s / n * n == s;
    if s / n < lo {
      assert s / n * n < lo * n;
    }
    if s / n > hi {
      assert s / n * n > hi * n;
    }
  }

  /**
    Each point is its day's mean over at least one log, stamped with the first log of that day.
  */
  lemma {:induction false} PointsAreDailyMeans(logs: seq<StressLog>, dateKey: int -> string, i: nat)
    requires i < |DailyPoints(logs, dateKey)|
    ensures var p := DailyPoints(logs, dateKey)[i];
      var ms := Members(Days(logs, dateKey), p.name);
      && |ms| >= 1
      && p.level == SumLevels(ms) / |ms| as real
      && p.timestamp == ms[0].timestamp
      && (forall j :: 0 <= j < |ms| ==> dateKey(ms[j].timestamp) == p.name)
  {
    DailyPointAt(logs, dateKey, i);
    var xs := Days(logs, dateKey);
    var k := FirstAppearance(TagsOf(xs))[i];
    var ms := Members(xs, k);
    DayMembersHaveDay(logs, dateKey, k);
  }

  /** The logs grouped under a day are exactly logs of that day. */
  lemma {:induction false} DayMembersHaveDay(logs: seq<StressLog>, dateKey: int -> string, k: string)
    ensures forall v :: v in Members(Days(logs, dateKey), k) ==> dateKey(v.timestamp) == k
  {
    if logs != [] {
      var init := logs[..|logs| - 1];
      assert Days(logs, dateKey)[..|logs| - 1] == Days(init, dateKey);
      DayMembersHaveDay(init, dateKey, k);
    }
  }
}
