/**
 * The back-end's `HealthRecordService` (Application/HealthRecords/Services/
 * HealthRecordService.cs): adding weight, glucose and blood-pressure
 * readings, listing them, the overall statistics, the trend analysis over
 * the last days, the BMI placeholder and the export placeholder.
 *
 * A record's `Data` column is deserialised lazily, while the response is
 * enumerated; `System.Text.Json` throws a `JsonException` when a `required`
 * member of the target value object is missing, which happens whenever the
 * stored payload is a value object of another type. Every listing therefore
 * yields either the responses or `Err(JsonException)`.
 */
module HealthRecordServices {
  import opened Wrappers
  import opened Seqs
  import opened BackendPersistence
  import opened BackendRepositories

  datatype WeightRecordRequest = WeightRecordRequest(
    weight: real, bodyFatPercentage: Option<string>, muscleMass: Option<string>,
    waterPercentage: Option<string>, comment: Option<string>)

  datatype GlucoseRecordRequest = GlucoseRecordRequest(
    glucoseLevel: real, glucoseType: int, mealType: Option<string>, comment: Option<string>)

  datatype BloodPressureRecordRequest = BloodPressureRecordRequest(
    systolic: int, diastolic: int, heartRate: int, position: Option<string>, comment: Option<string>)

  datatype WeightRecordResponse = WeightRecordResponse(
    id: string, weight: real, bodyFatPercentage: Option<string>, muscleMass: Option<string>,
    waterPercentage: Option<string>, comment: Option<string>, recordedAt: int, createdAt: int)

  datatype GlucoseRecordResponse = GlucoseRecordResponse(
    id: string, glucoseLevel: real, glucoseType: int, mealType: Option<string>,
    comment: Option<string>, recordedAt: int, createdAt: int)

  datatype BloodPressureRecordResponse = BloodPressureRecordResponse(
    id: string, systolic: int, diastolic: int, heartRate: int, position: Option<string>,
    comment: Option<string>, recordedAt: int, createdAt: int)

  datatype HealthStatisticsResponse = HealthStatisticsResponse(
    totalWeightRecords: int, totalGlucoseRecords: int, totalBloodPressureRecords: int,
    averageWeight: Option<real>, latestWeight: Option<real>, bmi: Option<real>,
    weightTrend: Option<string>, lastRecordedAt: Option<int>)

  datatype ChartDataPoint = ChartDataPoint(date: int, value: real)

  datatype WeightTrendData = WeightTrendData(
    dataPoints: seq<ChartDataPoint>, startWeight: Option<real>, endWeight: Option<real>,
    change: Option<real>, changePercentage: Option<real>, trend: string)

  datatype GlucoseTrendData = GlucoseTrendData(
    dataPoints: seq<ChartDataPoint>, average: Option<real>, min: Option<real>, max: Option<real>)

  datatype BloodPressureTrendData = BloodPressureTrendData(
    dataPoints: seq<ChartDataPoint>, averageSystolic: Option<int>, averageDiastolic: Option<int>,
    averageHeartRate: Option<int>)

  datatype TrendAnalysisResponse = TrendAnalysisResponse(
    weightTrend: WeightTrendData, glucoseTrend: GlucoseTrendData,
    bloodPressureTrend: BloodPressureTrendData)

  /** The exceptions the service lets escape. */
  datatype ServiceError = JsonException | ArgumentOutOfRange

  // ---------------------------------------------------------------- adding readings

  /**
   * The record an `Add...RecordAsync` builds: no key yet, the reading's
   * payload, created by `userId` now (the save hook replaces the audit
   * columns).
   */
  function NewHealthRecord(userId: string, t: HealthRecordType, data: Payload, now: int): HealthRecord
  {
    HealthRecord(EmptyGuid, Audit(now, None, userId, None), userId, t, data, None)
  }

  function WeightPayload(request: WeightRecordRequest, now: int): Payload
  {
    WeightValue(request.weight, now, request.bodyFatPercentage, request.muscleMass,
                request.waterPercentage, request.comment)
  }

  function GlucosePayload(request: GlucoseRecordRequest, now: int): Payload
  {
    GlucoseValue(request.glucoseLevel, now, request.glucoseType, request.mealType, request.comment)
  }

  function BloodPressurePayload(request: BloodPressureRecordRequest, now: int): Payload
  {
    BloodPressureValue(request.systolic, request.diastolic, now, request.heartRate, request.position,
                       request.comment)
  }

  /** Every stored record's payload is the value object its `RecordType` names. */
  ghost predicate WellTyped(rows: seq<HealthRecord>)
  {
    forall i :: 0 <= i < |rows| ==> HoldsType(rows[i].data, rows[i].recordType)
  }

  // ---------------------------------------------------------------- decoding

  /** Every row deserialises as the value object of type `t`. */
  predicate AllHold(rows: seq<HealthRecord>, t: HealthRecordType)
  {
    forall i :: 0 <= i < |rows| ==> HoldsType(rows[i].data, t)
  }

  function WeightResponse(r: HealthRecord): WeightRecordResponse
    requires r.data.WeightValue?
  {
    WeightRecordResponse(r.id, r.data.weight, r.data.bodyFatPercentage, r.data.muscleMass,
                         r.data.waterPercentage, r.data.comment, r.data.recordedAt, r.audit.createdAt)
  }

  function GlucoseResponse(r: HealthRecord): GlucoseRecordResponse
    requires r.data.GlucoseValue?
  {
    GlucoseRecordResponse(r.id, r.data.glucoseLevel, r.data.glucoseType, r.data.mealType,
                          r.data.comment, r.data.recordedAt, r.audit.createdAt)
  }

  function BloodPressureResponse(r: HealthRecord): BloodPressureRecordResponse
    requires r.data.BloodPressureValue?
  {
    BloodPressureRecordResponse(r.id, r.data.systolic, r.data.diastolic, r.data.beatsPerMinute,
                                r.data.position, r.data.comment, r.data.recordedAt, r.audit.createdAt)
  }

  /**
   * `records.Select(r => new ...Response { ... Deserialize<...>(r.Data) ... })`
   * enumerated: the responses in row order, or a `JsonException` as soon as
   * one row does not hold a value object of type `t`.
   */
  function DecodeAll<T>(rows: seq<HealthRecord>, t: HealthRecordType, f: HealthRecord --> T): (r: Result<seq<T>, ServiceError>)
    requires forall x: HealthRecord :: HoldsType(x.data, t) ==> f.requires(x)
    ensures r.Ok? <==> AllHold(rows, t)
    ensures r.Err? ==> r.error == JsonException
    ensures r.Ok? ==> |r.value| == |rows| && forall i :: 0 <= i < |rows| ==> r.value[i] == f(rows[i])
  {
    if rows == [] then Ok([])
    else if !HoldsType(rows[0].data, t) then Err(JsonException)
    else
      match DecodeAll(rows[1..], t, f)
      case Err(e) => Err(e)
      case Ok(rest) =>
        assert forall i :: 1 <= i < |rows| ==> rows[i] == rows[1..][i - 1];
        Ok([f(rows[0])] + rest)
  }

  // ---------------------------------------------------------------- choosing the records

  function CreatedIn(startDate: int, endDate: int): HealthRecord -> bool
  {
    (r: HealthRecord) => startDate <= r.audit.createdAt <= endDate
  }

  /**
   * The records `Get...RecordsAsync` reads AS WRITTEN: with neither date,
   * the user's records of type `t`; with either date, every record of the
   * user created in the range, of ANY type, the missing end defaulting to
   * `DateTime.MinValue` or `DateTime.MaxValue`.
   */
  function SelectAsWritten(rows: seq<HealthRecord>, userId: string, t: HealthRecordType,
                           startDate: Option<int>, endDate: Option<int>): seq<HealthRecord>
  {
    if startDate.None? && endDate.None? then Query(rows, OfType(userId, t), CreatedAt)
    else Query(rows, CreatedBetween(userId, startDate.GetOr(MinTicks), endDate.GetOr(MaxTicks)), CreatedAt)
  }

  /**
   * The corrected selection: the user's records of type `t`, newest first,
   * narrowed to the range when either date is given.
   */
  function Select(rows: seq<HealthRecord>, userId: string, t: HealthRecordType,
                  startDate: Option<int>, endDate: Option<int>): seq<HealthRecord>
  {
    var q := Query(rows, OfType(userId, t), CreatedAt);
    if startDate.None? && endDate.None? then q
    else Filter(q, CreatedIn(startDate.GetOr(MinTicks), endDate.GetOr(MaxTicks)))
  }

  /**
   * With a date given, the as-written selection takes in every record of
   * the user in the range whatever its type; so a stored reading of another
   * type in the range makes the listing fail with a `JsonException`.
   */
  lemma SelectAsWrittenMixesTypes(rows: seq<HealthRecord>, userId: string, t: HealthRecordType,
                                  startDate: Option<int>, endDate: Option<int>, x: HealthRecord)
    requires startDate.Some? || endDate.Some?
    requires WellTyped(rows) && x in rows && x.userId == userId && x.recordType != t
    requires startDate.GetOr(MinTicks) <= x.audit.createdAt <= endDate.GetOr(MaxTicks)
    ensures x in SelectAsWritten(rows, userId, t, startDate, endDate)
    ensures !AllHold(SelectAsWritten(rows, userId, t, startDate, endDate), t)
  {
    var p := CreatedBetween(userId, startDate.GetOr(MinTicks), endDate.GetOr(MaxTicks));
    QuerySound(rows, p, CreatedAt);
    var s := SelectAsWritten(rows, userId, t, startDate, endDate);
    assert x in s;
    var i :| 0 <= i < |s| && s[i] == x;
    var j :| 0 <= j < |rows| && rows[j] == x;
    assert HoldsType(x.data, x.recordType);
  }

  /**
   * The corrected selection holds exactly the user's records of type `t`
   * (in the range, when a date is given), newest first; on well-typed
   * tables every one of them deserialises.
   */
  lemma SelectSound(rows: seq<HealthRecord>, userId: string, t: HealthRecordType,
                    startDate: Option<int>, endDate: Option<int>)
    ensures var s := Select(rows, userId, t, startDate, endDate);
            && (forall x :: x in s <==>
                  && x in rows && x.userId == userId && x.recordType == t
                  && (startDate.Some? || endDate.Some? ==>
                        startDate.GetOr(MinTicks) <= x.audit.createdAt <= endDate.GetOr(MaxTicks)))
            && SortedBy(s, Descending(CreatedAt))
            && (WellTyped(rows) ==> AllHold(s, t))
  {
    var q := Query(rows, OfType(userId, t), CreatedAt);
    QuerySound(rows, OfType(userId, t), CreatedAt);
    FilterSorted(q, CreatedIn(startDate.GetOr(MinTicks), endDate.GetOr(MaxTicks)), Descending(CreatedAt));
    var s := Select(rows, userId, t, startDate, endDate);
    if WellTyped(rows) {
      forall i | 0 <= i < |s| ensures HoldsType(s[i].data, t) {
        assert s[i] in s;
        var j :| 0 <= j < |rows| && rows[j] == s[i];
      }
    }
  }

  // ---------------------------------------------------------------- statistics

  /** `Deserialize<WeightRecordValue>(r.Data)?.Weight ?? 0` once deserialisation has succeeded. */
  function WeightOf(r: HealthRecord): real
  {
    if r.data.WeightValue? then r.data.weight else 0.0
  }

  /** The weight trend label of a change in kilograms. */
  function WeightTrend(change: real): (r: string)
    ensures r == "stable" <==> -1.0 < change < 1.0
    ensures r == "increasing" <==> change >= 1.0
    ensures r == "decreasing" <==> change <= -1.0
  {
    var magnitude := if change < 0.0 then -change else change;
    if magnitude < 1.0 then "stable"
    else if change > 0.0 then "increasing"
    else "decreasing"
  }

  /** `weights.Any() ? weights.Average(...) : null` */
  function AverageWeight(weights: seq<HealthRecord>): Option<real>
  {
    if weights == [] then None else Some(SumReal(weights, WeightOf) / |weights| as real)
  }

  /**
   * `GetHealthStatisticsAsync` on the user's weight readings (newest
   * first), the numbers of glucose and blood-pressure readings and the
   * BMI `CalculateBMIAsync` gave.
   */
  function HealthStatistics(weights: seq<HealthRecord>, glucoseCount: int, bloodPressureCount: int,
                            bmi: Option<real>): Result<HealthStatisticsResponse, ServiceError>
  {
    if !AllHold(weights, Weight) then Err(JsonException)
    else
      var n := |weights|;
      Ok(HealthStatisticsResponse(
        n, glucoseCount, bloodPressureCount,
        AverageWeight(weights),
        if n == 0 then None else Some(WeightOf(weights[0])),
        if n == 0 then None else bmi,
        if n >= 2 then Some(WeightTrend(WeightOf(weights[0]) - WeightOf(weights[n - 1]))) else None,
        if n == 0 then None else Some(weights[0].audit.createdAt)))
  }

  /** The newest record of a newest-first query is at least as new as every record the query matches. */
  lemma NewestFirst(rows: seq<HealthRecord>, p: HealthRecord -> bool)
    requires Query(rows, p, CreatedAt) != []
    ensures forall x :: x in rows && p(x) ==> x.audit.createdAt <= Query(rows, p, CreatedAt)[0].audit.createdAt
  {
    var q := Query(rows, p, CreatedAt);
    QuerySound(rows, p, CreatedAt);
    forall x | x in rows && p(x) ensures x.audit.createdAt <= q[0].audit.createdAt {
      assert x in q;
      var j :| 0 <= j < |q| && q[j] == x;
      if j > 0 {
        assert !Descending(CreatedAt)(q[j], q[0]);
        assert CreatedAt(q[j]) <= CreatedAt(q[0]);
      }
    }
  }

  /**
   * The statistics fail exactly when a weight reading does not deserialise,
   * which never happens on well-typed tables; the totals count the user's
   * readings of each type.
   */
  lemma HealthStatisticsTotals(rows: seq<HealthRecord>, userId: string, bmi: Option<real>)
    ensures var weights := Query(rows, OfType(userId, Weight), CreatedAt);
            var r := HealthStatistics(weights, Count(rows, OfType(userId, Glucose)),
                                      Count(rows, OfType(userId, BloodPressure)), bmi);
            && (r.Ok? <==> AllHold(weights, Weight))
            && (WellTyped(rows) ==> r.Ok?)
            && (r.Ok? ==>
                  && r.value.totalWeightRecords == Count(rows, OfType(userId, Weight))
                  && r.value.totalGlucoseRecords == Count(rows, OfType(userId, Glucose))
                  && r.value.totalBloodPressureRecords == Count(rows, OfType(userId, BloodPressure)))
  {
    QuerySound(rows, OfType(userId, Weight), CreatedAt);
    SelectSound(rows, userId, Weight, None, None);
  }

  /** The average weight exists exactly when there are readings, and times their number it is the total weight. */
  lemma AverageWeightSound(weights: seq<HealthRecord>)
    ensures AverageWeight(weights).None? <==> weights == []
    ensures AverageWeight(weights).Some? ==>
              AverageWeight(weights).value * |weights| as real == SumReal(weights, WeightOf)
  {
    if weights != [] {
      var total := SumReal(weights, WeightOf);
      var n := |weights| as real;
      assert total / n * n == total;
    }
  }

  /**
   * On success the latest weight and the last recorded time are those of
   * the newest reading; the trend exists from two readings on and labels
   * the newest minus the oldest weight.
   */
  lemma HealthStatisticsLatest(weights: seq<HealthRecord>, glucoseCount: int, bloodPressureCount: int, bmi: Option<real>)
    requires HealthStatistics(weights, glucoseCount, bloodPressureCount, bmi).Ok?
    ensures var s := HealthStatistics(weights, glucoseCount, bloodPressureCount, bmi).value;
            && (s.latestWeight.Some? <==> weights != [])
            && (s.latestWeight.Some? ==>
                  && weights[0].data.WeightValue?
                  && s.latestWeight.value == weights[0].data.weight
                  && s.lastRecordedAt == Some(weights[0].audit.createdAt))
            && (s.weightTrend.Some? <==> |weights| >= 2)
            && (s.weightTrend.Some? ==>
                  && weights[|weights| - 1].data.WeightValue?
                  && s.weightTrend.value == WeightTrend(s.latestWeight.value - weights[|weights| - 1].data.weight))
  {
    if weights != [] {
      assert HoldsType(weights[0].data, Weight);
      assert HoldsType(weights[|weights| - 1].data, Weight);
    }
  }

  // ---------------------------------------------------------------- trend analysis

  function PointDate(p: ChartDataPoint): int { p.date }
  function PointValue(p: ChartDataPoint): real { p.value }

  /** `Select(r => new ChartDataPoint { Date = r.CreatedAt, Value = value(r) })` */
  function ToPoint(value: HealthRecord -> real): HealthRecord -> ChartDataPoint
  {
    (r: HealthRecord) => ChartDataPoint(r.audit.createdAt, value(r))
  }

  /** The chart points of the records, oldest first (`OrderBy(dp => dp.Date)`, stable). */
  function Points(rows: seq<HealthRecord>, value: HealthRecord -> real): seq<ChartDataPoint>
  {
    SortBy(Map(rows, ToPoint(value)), Ascending(PointDate))
  }

  function GlucoseOf(r: HealthRecord): real
  {
    if r.data.GlucoseValue? then r.data.glucoseLevel else 0.0
  }

  function SystolicOf(r: HealthRecord): int
  {
    if r.data.BloodPressureValue? then r.data.systolic else 0
  }

  function DiastolicOf(r: HealthRecord): int
  {
    if r.data.BloodPressureValue? then r.data.diastolic else 0
  }

  function HeartRateOf(r: HealthRecord): int
  {
    if r.data.BloodPressureValue? then r.data.beatsPerMinute else 0
  }

  function AsReal(f: HealthRecord -> int): HealthRecord -> real
  {
    (r: HealthRecord) => f(r) as real
  }

  /** A cast from a floating-point value to `int`: drops the fraction, rounding toward zero. */
  function Truncate(x: real): (r: int)
    ensures x >= 0.0 ==> r as real <= x < r as real + 1.0
    ensures x < 0.0 ==> r as real - 1.0 < x <= r as real
  {
    if x >= 0.0 then x.Floor else -((-x).Floor)
  }

  /** `rows.Any() ? (int?)rows.Average(f) : null` */
  function TruncatedAverage(rows: seq<HealthRecord>, f: HealthRecord -> int): Option<int>
  {
    if rows == [] then None else Some(Truncate(Average(rows, AsReal(f))))
  }

  /** The weight section: first and last point, their difference and the label. */
  function WeightTrendOf(points: seq<ChartDataPoint>): WeightTrendData
  {
    if points == [] then WeightTrendData(points, None, None, None, None, "stable")
    else
      var first := points[0].value;
      var last := points[|points| - 1].value;
      WeightTrendData(points, Some(first), Some(last), Some(last - first), None,
                      if |points| >= 2 && last != first then
                        (if last > first then "increasing" else "decreasing")
                      else "stable")
  }

  function GlucoseTrendOf(points: seq<ChartDataPoint>): GlucoseTrendData
  {
    if points == [] then GlucoseTrendData(points, None, None, None)
    else GlucoseTrendData(points, Some(Average(points, PointValue)),
                          Some(MinBy(points, PointValue)), Some(MaxBy(points, PointValue)))
  }

  function BloodPressureTrendOf(rows: seq<HealthRecord>): BloodPressureTrendData
  {
    BloodPressureTrendData(Points(rows, AsReal(SystolicOf)), TruncatedAverage(rows, SystolicOf),
                           TruncatedAverage(rows, DiastolicOf), TruncatedAverage(rows, HeartRateOf))
  }

  /** The three sections over the records each one reads; a record of the wrong type throws. */
  function TrendAnalysisOf(weights: seq<HealthRecord>, glucose: seq<HealthRecord>,
                           bloodPressure: seq<HealthRecord>): Result<TrendAnalysisResponse, ServiceError>
  {
    if !AllHold(weights, Weight) || !AllHold(glucose, Glucose) || !AllHold(bloodPressure, BloodPressure) then
      Err(JsonException)
    else
      Ok(TrendAnalysisResponse(WeightTrendOf(Points(weights, WeightOf)),
                               GlucoseTrendOf(Points(glucose, GlucoseOf)),
                               BloodPressureTrendOf(bloodPressure)))
  }

  /** `endDate.AddDays(-days)`: out of the `DateTime` range it throws. */
  function WindowStart(now: int, days: int): Result<int, ServiceError>
  {
    var start := now - days * TicksPerDay;
    if start < MinTicks || start > MaxTicks then Err(ArgumentOutOfRange) else Ok(start)
  }

  /**
   * `GetTrendAnalysisAsync` AS WRITTEN: each section reads every record of
   * the user created in the window, of any type.
   */
  function TrendAnalysisAsWritten(rows: seq<HealthRecord>, userId: string, days: int, now: int): Result<TrendAnalysisResponse, ServiceError>
  {
    match WindowStart(now, days)
    case Err(e) => Err(e)
    case Ok(start) =>
      var inWindow := Query(rows, CreatedBetween(userId, start, now), CreatedAt);
      TrendAnalysisOf(inWindow, inWindow, inWindow)
  }

  /** The corrected trend analysis: each section reads the user's records of its own type in the window. */
  function TrendAnalysis(rows: seq<HealthRecord>, userId: string, days: int, now: int): Result<TrendAnalysisResponse, ServiceError>
  {
    match WindowStart(now, days)
    case Err(e) => Err(e)
    case Ok(start) =>
      TrendAnalysisOf(Select(rows, userId, Weight, Some(start), Some(now)),
                      Select(rows, userId, Glucose, Some(start), Some(now)),
                      Select(rows, userId, BloodPressure, Some(start), Some(now)))
  }

  /**
   * As written, the trend analysis fails with a `JsonException` as soon as
   * the user has any record in the window: no payload deserialises both as
   * a weight and as a glucose reading.
   */
  lemma TrendAnalysisAsWrittenFails(rows: seq<HealthRecord>, userId: string, days: int, now: int, x: HealthRecord)
    requires WindowStart(now, days).Ok?
    requires x in rows && x.userId == userId
    requires WindowStart(now, days).value <= x.audit.createdAt <= now
    ensures TrendAnalysisAsWritten(rows, userId, days, now) == Err(JsonException)
  {
    var start := WindowStart(now, days).value;
    var p := CreatedBetween(userId, start, now);
    QuerySound(rows, p, CreatedAt);
    var inWindow := Query(rows, p, CreatedAt);
    assert x in inWindow;
    var i :| 0 <= i < |inWindow| && inWindow[i] == x;
    assert !(HoldsType(x.data, Weight) && HoldsType(x.data, Glucose));
  }

  /** On well-typed tables the corrected trend analysis fails only for a window outside the `DateTime` range. */
  lemma TrendAnalysisFailsOnlyOutOfRange(rows: seq<HealthRecord>, userId: string, days: int, now: int)
    requires WellTyped(rows)
    ensures TrendAnalysis(rows, userId, days, now).Err? <==> WindowStart(now, days).Err?
    ensures TrendAnalysis(rows, userId, days, now).Err? ==>
              TrendAnalysis(rows, userId, days, now).error == ArgumentOutOfRange
  {
    if WindowStart(now, days).Ok? {
      var start := WindowStart(now, days).value;
      SelectSound(rows, userId, Weight, Some(start), Some(now));
      SelectSound(rows, userId, Glucose, Some(start), Some(now));
      SelectSound(rows, userId, BloodPressure, Some(start), Some(now));
    }
  }

  /**
   * The weight section: points oldest first, one per reading; the change is
   * the last point minus the first; the label is "stable" unless there are
   * two or more points whose last and first values differ, and then
   * "increasing" exactly when the last is larger.
   */
  lemma WeightTrendRules(rows: seq<HealthRecord>)
    ensures var points := Points(rows, WeightOf);
            var w := WeightTrendOf(points);
            && SortedBy(w.dataPoints, Ascending(PointDate))
            && multiset(w.dataPoints) == multiset(Map(rows, ToPoint(WeightOf)))
            && |w.dataPoints| == |rows|
            && (w.change.Some? <==> rows != [])
            && (rows != [] ==> w.change.value == w.endWeight.value - w.startWeight.value)
            && (w.trend == "stable" <==> |rows| < 2 || w.endWeight.value == w.startWeight.value)
            && (w.trend == "increasing" <==> |rows| >= 2 && w.endWeight.value > w.startWeight.value)
            && (w.trend == "decreasing" <==> |rows| >= 2 && w.endWeight.value < w.startWeight.value)
            && w.changePercentage.None?
  {
    var m := Map(rows, ToPoint(WeightOf));
    AscendingStrictWeak(PointDate, m);
    SortBySorted(m, Ascending(PointDate));
  }

  /** The glucose section: average, minimum and maximum exist together, with minimum <= average <= maximum. */
  lemma GlucoseTrendBounds(points: seq<ChartDataPoint>)
    ensures var g := GlucoseTrendOf(points);
            && (g.average.None? <==> points == [])
            && (g.min.None? <==> points == []) && (g.max.None? <==> points == [])
            && (points != [] ==>
                  && g.min.value <= g.average.value <= g.max.value
                  && (forall p :: p in g.dataPoints ==> g.min.value <= p.value <= g.max.value))
  {
    if points != [] {
      AverageBetweenMinMax(points, PointValue);
    }
  }

  /** Truncating a value that lies between two integers keeps it between them. */
  lemma TruncateBetween(x: real, lo: int, hi: int)
    requires lo as real <= x <= hi as real
    ensures lo <= Truncate(x) <= hi
  {
  }

  /** A truncated average of integers lies between the smallest and the largest of them. */
  lemma TruncatedAverageBetween(rows: seq<HealthRecord>, f: HealthRecord -> int)
    requires rows != []
    ensures exists x :: x in rows && f(x) <= TruncatedAverage(rows, f).value
    ensures exists y :: y in rows && TruncatedAverage(rows, f).value <= f(y)
  {
    var g := AsReal(f);
    var lo := MinBy(rows, g);
    var hi := MaxBy(rows, g);
    var x :| x in rows && lo == g(x);
    var y :| y in rows && hi == g(y);
    AverageBetweenMinMax(rows, g);
    assert lo == f(x) as real && hi == f(y) as real;
    TruncateBetween(Average(rows, g), f(x), f(y));
  }

  // ---------------------------------------------------------------- the service

  class HealthRecordService {
    const repository: HealthRecordRepository

    constructor(repository: HealthRecordRepository)
      ensures this.repository == repository
    {
      this.repository := repository;
    }

    /** `AddWeightRecordAsync`: stores the reading, recorded now, under a generated key and returns the key. */
    method AddWeightRecord(userId: string, request: WeightRecordRequest, freshId: string, now: int) returns (id: string)
      requires repository.context.Valid() && Settled(repository.context.tracker)
      requires freshId != EmptyGuid && !HasKey(repository.context.healthRecords, HealthId, freshId)
      modifies repository.context
      ensures repository.context.Valid() && Settled(repository.context.tracker)
      ensures id == freshId
      ensures repository.context.healthRecords == old(repository.context.healthRecords) +
                [NewHealthRecord(userId, Weight, WeightPayload(request, now), now)
                   .(id := freshId, audit := AddedAudit(now, repository.context.currentUserId))]
      ensures repository.context.foodRecords == old(repository.context.foodRecords)
      ensures WellTyped(old(repository.context.healthRecords)) ==> WellTyped(repository.context.healthRecords)
    {
      var record := NewHealthRecord(userId, Weight, WeightPayload(request, now), now);
      var saved := repository.Add(record, freshId, now);
      id := saved.value.id;
    }

    /** `AddGlucoseRecordAsync`: as for weight. */
    method AddGlucoseRecord(userId: string, request: GlucoseRecordRequest, freshId: string, now: int) returns (id: string)
      requires repository.context.Valid() && Settled(repository.context.tracker)
      requires freshId != EmptyGuid && !HasKey(repository.context.healthRecords, HealthId, freshId)
      modifies repository.context
      ensures repository.context.Valid() && Settled(repository.context.tracker)
      ensures id == freshId
      ensures repository.context.healthRecords == old(repository.context.healthRecords) +
                [NewHealthRecord(userId, Glucose, GlucosePayload(request, now), now)
                   .(id := freshId, audit := AddedAudit(now, repository.context.currentUserId))]
      ensures repository.context.foodRecords == old(repository.context.foodRecords)
      ensures WellTyped(old(repository.context.healthRecords)) ==> WellTyped(repository.context.healthRecords)
    {
      var record := NewHealthRecord(userId, Glucose, GlucosePayload(request, now), now);
      var saved := repository.Add(record, freshId, now);
      id := saved.value.id;
    }

    /** `AddBloodPressureRecordAsync`: as for weight. */
    method AddBloodPressureRecord(userId: string, request: BloodPressureRecordRequest, freshId: string, now: int) returns (id: string)
      requires repository.context.Valid() && Settled(repository.context.tracker)
      requires freshId != EmptyGuid && !HasKey(repository.context.healthRecords, HealthId, freshId)
      modifies repository.context
      ensures repository.context.Valid() && Settled(repository.context.tracker)
      ensures id == freshId
      ensures repository.context.healthRecords == old(repository.context.healthRecords) +
                [NewHealthRecord(userId, BloodPressure, BloodPressurePayload(request, now), now)
                   .(id := freshId, audit := AddedAudit(now, repository.context.currentUserId))]
      ensures repository.context.foodRecords == old(repository.context.foodRecords)
      ensures WellTyped(old(repository.context.healthRecords)) ==> WellTyped(repository.context.healthRecords)
    {
      var record := NewHealthRecord(userId, BloodPressure, BloodPressurePayload(request, now), now);
      var saved := repository.Add(record, freshId, now);
      id := saved.value.id;
    }

    /** The records a corrected `Get...RecordsAsync` reads. */
    method Records(userId: string, t: HealthRecordType, startDate: Option<int>, endDate: Option<int>)
      returns (records: seq<HealthRecord>)
      ensures records == Select(repository.context.healthRecords, userId, t, startDate, endDate)
    {
      records := repository.GetByType(userId, t);
      if startDate.Some? || endDate.Some? {
        records := Filter(records, CreatedIn(startDate.GetOr(MinTicks), endDate.GetOr(MaxTicks)));
      }
    }

    /** `GetWeightRecordsAsync`, corrected: the user's weight readings (in the range), newest first. */
    method GetWeightRecords(userId: string, startDate: Option<int>, endDate: Option<int>)
      returns (r: Result<seq<WeightRecordResponse>, ServiceError>)
      ensures r == DecodeAll(Select(repository.context.healthRecords, userId, Weight, startDate, endDate),
                             Weight, WeightResponse)
    {
      var records := Records(userId, Weight, startDate, endDate);
      r := DecodeAll(records, Weight, WeightResponse);
    }

    /** `GetGlucoseRecordsAsync`, corrected. */
    method GetGlucoseRecords(userId: string, startDate: Option<int>, endDate: Option<int>)
      returns (r: Result<seq<GlucoseRecordResponse>, ServiceError>)
      ensures r == DecodeAll(Select(repository.context.healthRecords, userId, Glucose, startDate, endDate),
                             Glucose, GlucoseResponse)
    {
      var records := Records(userId, Glucose, startDate, endDate);
      r := DecodeAll(records, Glucose, GlucoseResponse);
    }

    /** `GetBloodPressureRecordsAsync`, corrected. */
    method GetBloodPressureRecords(userId: string, startDate: Option<int>, endDate: Option<int>)
      returns (r: Result<seq<BloodPressureRecordResponse>, ServiceError>)
      ensures r == DecodeAll(Select(repository.context.healthRecords, userId, BloodPressure, startDate, endDate),
                             BloodPressure, BloodPressureResponse)
    {
      var records := Records(userId, BloodPressure, startDate, endDate);
      r := DecodeAll(records, BloodPressure, BloodPressureResponse);
    }

    /** `ExportDataAsync`: reads the weight readings and reports success; nothing is written. */
    method ExportData(userId: string, format: string, filePath: string) returns (ok: bool)
      ensures ok
    {
      var weights := repository.GetByType(userId, Weight);
      ok := true;
    }

    /** `CalculateBMIAsync`: reads the user's records and has no height to work with, so gives no BMI. */
    method CalculateBMI(userId: string, currentWeight: Option<real>) returns (bmi: Option<real>)
      ensures bmi.None?
    {
      var records := repository.GetByUserId(userId);
      bmi := None;
    }

    /** `GetHealthStatisticsAsync` */
    method GetHealthStatistics(userId: string) returns (r: Result<HealthStatisticsResponse, ServiceError>)
      ensures r == HealthStatistics(Query(repository.context.healthRecords, OfType(userId, Weight), CreatedAt),
                                    Count(repository.context.healthRecords, OfType(userId, Glucose)),
                                    Count(repository.context.healthRecords, OfType(userId, BloodPressure)),
                                    None)
    {
      var weights := repository.GetByType(userId, Weight);
      var glucose := repository.GetByType(userId, Glucose);
      var bloodPressure := repository.GetByType(userId, BloodPressure);
      QuerySound(repository.context.healthRecords, OfType(userId, Glucose), CreatedAt);
      QuerySound(repository.context.healthRecords, OfType(userId, BloodPressure), CreatedAt);
      var bmi: Option<real> := None;
      if weights != [] {
        if !weights[0].data.WeightValue? {
          return Err(JsonException);
        }
        bmi := CalculateBMI(userId, Some(weights[0].data.weight));
      }
      r := HealthStatistics(weights, |glucose|, |bloodPressure|, bmi);
    }

    /** `GetTrendAnalysisAsync`, corrected: each section over its own readings of the last `days` days. */
    method GetTrendAnalysis(userId: string, days: int, now: int) returns (r: Result<TrendAnalysisResponse, ServiceError>)
      ensures r == TrendAnalysis(repository.context.healthRecords, userId, days, now)
    {
      var start := WindowStart(now, days);
      if start.Err? {
        return Err(start.error);
      }
      var weights := Records(userId, Weight, Some(start.value), Some(now));
      var glucose := Records(userId, Glucose, Some(start.value), Some(now));
      var bloodPressure := Records(userId, BloodPressure, Some(start.value), Some(now));
      r := TrendAnalysisOf(weights, glucose, bloodPressure);
    }
  }
}
