/**
 * `compile_daily_stats` of decode.py: one summary per activity day, accumulating the day's hourly stats
 * (calories, distance, active and rest hours, steps), counting the hours with a positive pace, tracking
 * the largest pace and listing one breakdown entry per hour. The accumulating loops are proved against a
 * definition of each summary field in terms of sums, the positive paces and their maximum.
 */
module Decode {
  import opened Wrappers
  import opened PyJson

  // ---------------------------------------------------------------------------
  // The summary of a day, defined

  /** One entry of a day's hourly breakdown (its "hour" text is not modelled). */
  datatype HourEntry = HourEntry(active: Json, calories: Json, distance: Json, pace: Json, steps: Json)

  /** The summary of one day. */
  datatype DaySummary = DaySummary(
    dayPos: Json,
    timestamp: Json,
    totalCalories: real,
    totalDistance: real,
    totalActiveHours: real,
    totalRestHours: real,
    totalSteps: real,
    avgPace: real,
    maxPace: real,
    activePeriods: nat,
    hourlyBreakdown: seq<HourEntry>,
    totalPace: real,
    totalDistanceKm: real,
    totalDistanceMiles: real)

  /** The numbers an hourly stat contributes, and its breakdown entry. */
  datatype HourStat = HourStat(calorie: real, distance: real, active: real, rest: real, pace: real, entry: HourEntry)

  /** The quantities summed over a day. */
  datatype Measure = Calorie | Distance | Active | Rest | Pace

  function Value(s: HourStat, m: Measure): real
  {
    match m
    case Calorie => s.calorie
    case Distance => s.distance
    case Active => s.active
    case Rest => s.rest
    case Pace => s.pace
  }

  /** One hourly stat: the missing numbers count as 0; a value that is not a number cannot be added (and a
      timestamp that is not a number cannot be divided), which raises. */
  function HourStatOf(h: Fields): Option<HourStat>
  {
    var calorie := GetOr(h, "calorie", JReal(0.0));
    var distance := GetOr(h, "distance", JReal(0.0));
    var active := GetOr(h, "active", JReal(0.0));
    var rest := GetOr(h, "rest", JReal(0.0));
    var pace := GetOr(h, "pace", JInt(0));
    var timestamp := GetOr(h, "timestamp", JInt(0));
    if NumOf(calorie).None? || NumOf(distance).None? || NumOf(active).None? || NumOf(rest).None? ||
       NumOf(pace).None? || NumOf(timestamp).None?
    then None
    else Some(HourStat(NumOf(calorie).value, NumOf(distance).value, NumOf(active).value, NumOf(rest).value,
                       NumOf(pace).value, HourEntry(active, calorie, distance, pace, pace)))
  }

  /** The hourly stats of a day, read in order; one that cannot be read fails them all. */
  function HourStats(hours: seq<Fields>): Option<seq<HourStat>>
  {
    if hours == [] then Some([])
    else match HourStats(hours[..|hours| - 1])
      case None => None
      case Some(stats) =>
        match HourStatOf(hours[|hours| - 1])
        case None => None
        case Some(s) => Some(stats + [s])
  }

  /** The values of one measure over the hours. */
  function Column(stats: seq<HourStat>, m: Measure): (xs: seq<real>)
    ensures |xs| == |stats|
  {
    seq(|stats|, i requires 0 <= i < |stats| => Value(stats[i], m))
  }

  function Entries(stats: seq<HourStat>): (es: seq<HourEntry>)
    ensures |es| == |stats|
  {
    seq(|stats|, i requires 0 <= i < |stats| => stats[i].entry)
  }

  function Sum(xs: seq<real>): real
  {
    if xs == [] then 0.0 else Sum(xs[..|xs| - 1]) + xs[|xs| - 1]
  }

  /** The positive values, in order. */
  function Positives(xs: seq<real>): seq<real>
  {
    if xs == [] then []
    else if xs[|xs| - 1] > 0.0 then Positives(xs[..|xs| - 1]) + [xs[|xs| - 1]]
    else Positives(xs[..|xs| - 1])
  }

  /** The largest value, starting from 0. */
  function MaxOr0(xs: seq<real>): real
  {
    if xs == [] then 0.0
    else if xs[|xs| - 1] > MaxOr0(xs[..|xs| - 1]) then xs[|xs| - 1]
    else MaxOr0(xs[..|xs| - 1])
  }

  /** The mean of the positive paces, 0 when there is none. */
  function MeanOfPositives(xs: seq<real>): real
  {
    var active := Positives(xs);
    if |active| > 0 then Sum(active) / (|active| as real) else 0.0
  }

  /** The running totals of a day after the hours `stats`: the sums, the hours with a positive pace, the
      largest pace and the breakdown; the fields set after the loop still hold 0. */
  function Tally(dayPos: Json, timestamp: Json, stats: seq<HourStat>): DaySummary
  {
    var paces := Column(stats, Pace);
    DaySummary(dayPos, timestamp, Sum(Column(stats, Calorie)), Sum(Column(stats, Distance)), Sum(Column(stats, Active)),
               Sum(Column(stats, Rest)), Sum(paces), 0.0, MaxOr0(paces), |Positives(paces)|, Entries(stats), 0.0, 0.0, 0.0)
  }

  /** The summary of a day whose hourly stats are `stats`: the tally completed with the mean positive pace, the
      distance per active hour (0 without active hours) and the distance in kilometres and miles. */
  function Summary(dayPos: Json, timestamp: Json, stats: seq<HourStat>): DaySummary
  {
    var t := Tally(dayPos, timestamp, stats);
    t.(avgPace := MeanOfPositives(Column(stats, Pace)),
       totalPace := if t.totalActiveHours > 0.0 then t.totalDistance / t.totalActiveHours else 0.0,
       totalDistanceKm := t.totalDistance / 1000.0,
       totalDistanceMiles := t.totalDistance / 1609.34)
  }

  /** One day: `dayPos` and `timestamp` default to 0 and `hourlyStats` to no hours; a timestamp that is not a
      number, hourly stats that are not a list of dicts, or an unreadable hour raise. */
  function DaySummaryOf(day: Fields): Option<DaySummary>
  {
    var timestamp := GetOr(day, "timestamp", JInt(0));
    if NumOf(timestamp).None? then None
    else match DictItems(GetOr(day, "hourlyStats", JList([])))
      case None => None
      case Some(hours) =>
        match HourStats(hours)
        case None => None
        case Some(stats) => Some(Summary(GetOr(day, "dayPos", JInt(0)), timestamp, stats))
  }

  function Summaries(days: seq<Fields>): Option<seq<DaySummary>>
  {
    if days == [] then Some([])
    else match Summaries(days[..|days| - 1])
      case None => None
      case Some(out) =>
        match DaySummaryOf(days[|days| - 1])
        case None => None
        case Some(d) => Some(out + [d])
  }

  /** The activity days of a reply: `data` defaults to `{}` and `activities` to `[]`; a reply or data that is
      not a dict, or activities that are not a list of dicts, raise. */
  function ActivityDays(v: Json): Option<seq<Fields>>
  {
    if !v.JObject? then None
    else
      var data := GetOr(v.fields, "data", EmptyDict);
      if !data.JObject? then None
      else DictItems(GetOr(data.fields, "activities", JList([])))
  }

  /** `compile_daily_stats`: the summaries of the days, or the error raised. */
  function DailyStats(v: Json): Result<seq<DaySummary>, Error>
  {
    match ActivityDays(v)
    case None => Failure(TypeFault)
    case Some(days) =>
      match Summaries(days)
      case None => Failure(TypeFault)
      case Some(out) => Success(out)
  }

  /** The raised exceptions of the function, all builtin ones (TypeError, AttributeError). */
  datatype Error = TypeFault

  // ---------------------------------------------------------------------------
  // The accumulating loops

  /** `compile_daily_stats`: one summary per day, in order. */
  method CompileDailyStats(v: Json) returns (r: Result<seq<DaySummary>, Error>)
    ensures r == DailyStats(v)
  {
    var activities := ActivityDays(v);
    if activities.None? {
      return Failure(TypeFault);
    }
    var days := activities.value;
    var summaries: seq<DaySummary> := [];
    var i := 0;
    while i < |days|
      invariant 0 <= i <= |days|
      invariant Summaries(days[..i]) == Some(summaries)
    {
      SummariesStep(days, i);
      var summary := CompileDay(days[i]);
      if summary.None? {
        SummariesFailurePersists(days, i + 1);
        return Failure(TypeFault);
      }
      summaries := summaries + [summary.value];
      i := i + 1;
    }
    assert days[..i] == days;
    return Success(summaries);
  }

  /** The body of the outer loop: the record of one day, built hour by hour, then completed. */
  method CompileDay(day: Fields) returns (r: Option<DaySummary>)
    ensures r == DaySummaryOf(day)
  {
    var dayPos := GetOr(day, "dayPos", JInt(0));
    var timestamp := GetOr(day, "timestamp", JInt(0));
    var hourly := DictItems(GetOr(day, "hourlyStats", JList([])));
    if NumOf(timestamp).None? || hourly.None? {
      return None;
    }
    var tally, activePaces := TallyHours(dayPos, timestamp, hourly.value);
    if tally.None? {
      return None;
    }
    ghost var stats := HourStats(hourly.value).value;
    var totals := tally.value;
    if |activePaces| > 0 {
      totals := totals.(avgPace := Sum(activePaces) / (|activePaces| as real));
    }
    if totals.totalActiveHours > 0.0 {
      totals := totals.(totalPace := totals.totalDistance / totals.totalActiveHours);
    } else {
      totals := totals.(totalPace := 0.0);
    }
    totals := totals.(totalDistanceKm := totals.totalDistance / 1000.0, totalDistanceMiles := totals.totalDistance / 1609.34);
    assert totals == Summary(dayPos, timestamp, stats);
    return Some(totals);
  }

  /** The hourly loop: the running totals of a day, starting from the initial record, and the positive paces
      met on the way; nothing when an hour cannot be read. */
  method TallyHours(dayPos: Json, timestamp: Json, hours: seq<Fields>) returns (r: Option<DaySummary>, activePaces: seq<real>)
    ensures r.Some? <==> HourStats(hours).Some?
    ensures r.Some? ==> r.value == Tally(dayPos, timestamp, HourStats(hours).value) &&
                        activePaces == Positives(Column(HourStats(hours).value, Pace))
  {
    var totals := DaySummary(dayPos, timestamp, 0.0, 0.0, 0.0, 0.0, 0.0, 0.0, 0.0, 0, [], 0.0, 0.0, 0.0);
    activePaces := [];
    ghost var seen: seq<HourStat> := [];
    var j := 0;
    assert hours[..0] == [];
    while j < |hours|
      invariant 0 <= j <= |hours|
      invariant HourStats(hours[..j]) == Some(seen)
      invariant totals == Tally(dayPos, timestamp, seen)
      invariant activePaces == Positives(Column(seen, Pace))
    {
      HourStatsStep(hours, j);
      var stat := HourStatOf(hours[j]);
      if stat.None? {
        HourStatsFailurePersists(hours, j + 1);
        return None, activePaces;
      }
      var s := stat.value;
      TallyStep(dayPos, timestamp, seen, s);
      totals := totals.(totalCalories := totals.totalCalories + s.calorie,
                        totalDistance := totals.totalDistance + s.distance,
                        totalActiveHours := totals.totalActiveHours + s.active,
                        totalRestHours := totals.totalRestHours + s.rest,
                        totalSteps := totals.totalSteps + s.pace);
      if s.pace > 0.0 {
        activePaces := activePaces + [s.pace];
        totals := totals.(activePeriods := totals.activePeriods + 1);
      }
      if s.pace > totals.maxPace {
        totals := totals.(maxPace := s.pace);
      }
      totals := totals.(hourlyBreakdown := totals.hourlyBreakdown + [s.entry]);
      seen := seen + [s];
      j := j + 1;
    }
    assert hours[..j] == hours;
    return Some(totals), activePaces;
  }

  // ---------------------------------------------------------------------------
  // Steps of the folds

  lemma {:induction false} SummariesStep(days: seq<Fields>, i: nat)
    requires i < |days|
    ensures Summaries(days[..i + 1]) ==
              if Summaries(days[..i]).None? || DaySummaryOf(days[i]).None? then None
              else Some(Summaries(days[..i]).value + [DaySummaryOf(days[i]).value])
  {
    var prefix := days[..i + 1];
    assert prefix[..|prefix| - 1] == days[..i] && prefix[|prefix| - 1] == days[i];
  }

  lemma {:induction false} SummariesFailurePersists(days: seq<Fields>, n: nat)
    requires n <= |days| && Summaries(days[..n]).None?
    ensures Summaries(days).None?
    decreases |days| - n
  {
    if n < |days| {
      var init := days[..|days| - 1];
      assert init[..n] == days[..n];
      SummariesFailurePersists(init, n);
    } else {
      assert days[..n] == days;
    }
  }

  lemma {:induction false} HourStatsStep(hours: seq<Fields>, j: nat)
    requires j < |hours|
    ensures HourStats(hours[..j + 1]) ==
              if HourStats(hours[..j]).None? || HourStatOf(hours[j]).None? then None
              else Some(HourStats(hours[..j]).value + [HourStatOf(hours[j]).value])
  {
    var prefix := hours[..j + 1];
    assert prefix[..|prefix| - 1] == hours[..j] && prefix[|prefix| - 1] == hours[j];
  }

  lemma {:induction false} HourStatsFailurePersists(hours: seq<Fields>, n: nat)
    requires n <= |hours| && HourStats(hours[..n]).None?
    ensures HourStats(hours).None?
    decreases |hours| - n
  {
    if n < |hours| {
      var init := hours[..|hours| - 1];
      assert init[..n] == hours[..n];
      HourStatsFailurePersists(init, n);
    } else {
      assert hours[..n] == hours;
    }
  }

  lemma {:induction false} SumSnoc(xs: seq<real>, x: real)
    ensures Sum(xs + [x]) == Sum(xs) + x
  {
    assert (xs + [x])[..|xs|] == xs;
  }

  lemma {:induction false} SumStep(stats: seq<HourStat>, s: HourStat, m: Measure)
    ensures Sum(Column(stats + [s], m)) == Sum(Column(stats, m)) + Value(s, m)
  {
    assert Column(stats + [s], m) == Column(stats, m) + [Value(s, m)];
    SumSnoc(Column(stats, m), Value(s, m));
  }

  /** One more hour adds its numbers to the sums, counts it when its pace is positive, raises the largest
      pace to it when it is larger and appends its entry to the breakdown. */
  lemma {:induction false} TallyStep(dayPos: Json, timestamp: Json, stats: seq<HourStat>, s: HourStat)
    ensures var t := Tally(dayPos, timestamp, stats);
            var paces := Column(stats, Pace);
            Tally(dayPos, timestamp, stats + [s]) ==
              t.(totalCalories := t.totalCalories + s.calorie,
                 totalDistance := t.totalDistance + s.distance,
                 totalActiveHours := t.totalActiveHours + s.active,
                 totalRestHours := t.totalRestHours + s.rest,
                 totalSteps := t.totalSteps + s.pace,
                 activePeriods := if s.pace > 0.0 then t.activePeriods + 1 else t.activePeriods,
                 maxPace := if s.pace > t.maxPace then s.pace else t.maxPace,
                 hourlyBreakdown := t.hourlyBreakdown + [s.entry])
    ensures Positives(Column(stats + [s], Pace)) ==
              if s.pace > 0.0 then Positives(Column(stats, Pace)) + [s.pace] else Positives(Column(stats, Pace))
  {
    SumStep(stats, s, Calorie);
    SumStep(stats, s, Distance);
    SumStep(stats, s, Active);
    SumStep(stats, s, Rest);
    SumStep(stats, s, Pace);
    var paces := Column(stats + [s], Pace);
    assert paces[..|paces| - 1] == Column(stats, Pace);
    assert Entries(stats + [s]) == Entries(stats) + [s.entry];
  }

  // ---------------------------------------------------------------------------
  // What the summaries mean

  /** The days are read one to one: the i-th summary is the summary of the i-th day. */
  lemma {:induction false} SummariesMeaning(days: seq<Fields>)
    requires Summaries(days).Some?
    ensures |Summaries(days).value| == |days|
    ensures forall i :: 0 <= i < |days| ==> DaySummaryOf(days[i]) == Some(Summaries(days).value[i])
  {
    if days != [] {
      var init := days[..|days| - 1];
      SummariesMeaning(init);
      forall i | 0 <= i < |days| - 1
        ensures DaySummaryOf(days[i]) == Some(Summaries(days).value[i])
      {
        assert init[i] == days[i];
      }
    }
  }

  /** There is one summary per activity day, in input order, carrying the day's `dayPos` and `timestamp`. */
  lemma {:induction false} OneSummaryPerDay(v: Json)
    requires DailyStats(v).Success?
    ensures ActivityDays(v).Some? && |DailyStats(v).value| == |ActivityDays(v).value|
    ensures forall i :: 0 <= i < |DailyStats(v).value| ==>
              DailyStats(v).value[i].dayPos == GetOr(ActivityDays(v).value[i], "dayPos", JInt(0)) &&
              DailyStats(v).value[i].timestamp == GetOr(ActivityDays(v).value[i], "timestamp", JInt(0))
  {
    SummariesMeaning(ActivityDays(v).value);
  }

  /** A reply without `data`, or whose data has no `activities`, gives no summaries. */
  lemma {:induction false} MissingActivitiesGiveNoSummaries(v: Json)
    requires v.JObject?
    requires (forall i :: 0 <= i < |v.fields| ==> v.fields[i].0 != "data") ||
             (var d := GetOr(v.fields, "data", EmptyDict); d.JObject? && forall i :: 0 <= i < |d.fields| ==> d.fields[i].0 != "activities")
    ensures DailyStats(v) == Success([])
  {
    GetOrMeaning(v.fields, "data", EmptyDict);
    var d := GetOr(v.fields, "data", EmptyDict);
    if d.JObject? {
      GetOrMeaning(d.fields, "activities", JList([]));
    }
  }

  /** The hours are read one to one: the i-th stat is read from the i-th hour. */
  lemma {:induction false} HourStatsMeaning(hours: seq<Fields>)
    requires HourStats(hours).Some?
    ensures |HourStats(hours).value| == |hours|
    ensures forall i :: 0 <= i < |hours| ==> HourStatOf(hours[i]) == Some(HourStats(hours).value[i])
  {
    if hours != [] {
      var init := hours[..|hours| - 1];
      HourStatsMeaning(init);
      forall i | 0 <= i < |hours| - 1
        ensures HourStatOf(hours[i]) == Some(HourStats(hours).value[i])
      {
        assert init[i] == hours[i];
      }
    }
  }

  /** Over hours whose paces read as `paces`: the steps are the sum of the paces, the active periods are the
      hours with a positive pace, the largest pace is the maximum of the paces and 0, and the breakdown has one
      entry per hour, in order, whose `pace` and `steps` are both the hour's `pace` (0 when missing). */
  lemma {:induction false} HourlyTotals(dayPos: Json, timestamp: Json, hours: seq<Fields>, paces: seq<real>)
    requires HourStats(hours).Some? && |paces| == |hours|
    requires forall i :: 0 <= i < |hours| ==> NumOf(GetOr(hours[i], "pace", JInt(0))) == Some(paces[i])
    ensures var d := Summary(dayPos, timestamp, HourStats(hours).value);
            d.totalSteps == Sum(paces) && d.maxPace == MaxOr0(paces) &&
            d.activePeriods == |set i | 0 <= i < |paces| && paces[i] > 0.0|
    ensures var d := Summary(dayPos, timestamp, HourStats(hours).value);
            |d.hourlyBreakdown| == |hours| &&
            forall i :: 0 <= i < |hours| ==>
              d.hourlyBreakdown[i].pace == GetOr(hours[i], "pace", JInt(0)) && d.hourlyBreakdown[i].steps == d.hourlyBreakdown[i].pace
  {
    HourStatsMeaning(hours);
    var stats := HourStats(hours).value;
    assert Column(stats, Pace) == paces;
    PositivesCount(paces);
  }

  /** An hour without a `pace` contributes 0 steps. */
  lemma {:induction false} MissingPaceCountsZero(h: Fields)
    requires HourStatOf(h).Some? && forall i :: 0 <= i < |h| ==> h[i].0 != "pace"
    ensures HourStatOf(h).value.pace == 0.0 && HourStatOf(h).value.entry.steps == JInt(0)
  {
    GetOrMeaning(h, "pace", JInt(0));
  }

  /** The positive values are positive, and there are as many of them as positive entries in the list. */
  lemma {:induction false} PositivesCount(xs: seq<real>)
    ensures forall k :: 0 <= k < |Positives(xs)| ==> Positives(xs)[k] > 0.0
    ensures |Positives(xs)| == |set i | 0 <= i < |xs| && xs[i] > 0.0|
  {
    if xs != [] {
      var init := xs[..|xs| - 1];
      PositivesCount(init);
      var before := set i | 0 <= i < |init| && init[i] > 0.0;
      var after := set i | 0 <= i < |xs| && xs[i] > 0.0;
      if xs[|xs| - 1] > 0.0 {
        assert after == before + {|xs| - 1};
      } else {
        assert after == before;
      }
    }
  }

  /** The largest pace starting from 0 is at least 0, at least every pace, and 0 or one of the paces. */
  lemma {:induction false} MaxOr0IsMaximum(xs: seq<real>)
    ensures MaxOr0(xs) >= 0.0
    ensures forall i :: 0 <= i < |xs| ==> xs[i] <= MaxOr0(xs)
    ensures MaxOr0(xs) == 0.0 || exists i :: 0 <= i < |xs| && xs[i] == MaxOr0(xs)
  {
    if xs != [] {
      var init := xs[..|xs| - 1];
      MaxOr0IsMaximum(init);
      assert forall i :: 0 <= i < |init| ==> xs[i] == init[i];
      if MaxOr0(xs) != 0.0 && MaxOr0(xs) != xs[|xs| - 1] {
        var i :| 0 <= i < |init| && init[i] == MaxOr0(init);
        assert xs[i] == MaxOr0(xs);
      }
    }
  }

  /** The positive values of a list sum to more than 0 when there are any, and to at most their number times
      the largest value. */
  lemma {:induction false} PositivesBounded(xs: seq<real>)
    ensures |Positives(xs)| > 0 ==> Sum(Positives(xs)) > 0.0
    ensures Sum(Positives(xs)) <= (|Positives(xs)| as real) * MaxOr0(xs)
  {
    if xs != [] {
      var init := xs[..|xs| - 1];
      var x := xs[|xs| - 1];
      PositivesBounded(init);
      MaxOr0IsMaximum(init);
      if x > 0.0 {
        SumSnoc(Positives(init), x);
        assert Sum(Positives(xs)) == Sum(Positives(init)) + x;
        assert (|Positives(xs)| as real) * MaxOr0(xs) == (|Positives(init)| as real) * MaxOr0(xs) + MaxOr0(xs);
      }
    }
  }

  /** A mean of positive values bounded by `n * m` lies in (0, m]. */
  lemma {:induction false} MeanBounds(total: real, n: real, m: real)
    requires n > 0.0 && 0.0 < total <= n * m
    ensures 0.0 < total / n <= m && (total / n) * n == total
  {
  }

  /** `avg_pace` is 0 when no hour has a positive pace, and otherwise the mean of the positive paces, which is
      greater than 0 and at most `max_pace`. */
  lemma {:induction false} MeanPaceBounds(paces: seq<real>)
    ensures |Positives(paces)| == 0 ==> MeanOfPositives(paces) == 0.0
    ensures |Positives(paces)| > 0 ==>
              MeanOfPositives(paces) * (|Positives(paces)| as real) == Sum(Positives(paces)) &&
              0.0 < MeanOfPositives(paces) <= MaxOr0(paces)
  {
    var active := Positives(paces);
    if |active| > 0 {
      var n := |active| as real;
      PositivesBounded(paces);
      MeanBounds(Sum(active), n, MaxOr0(paces));
      assert MeanOfPositives(paces) == Sum(active) / n;
    }
  }
}
