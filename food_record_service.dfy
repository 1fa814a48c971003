/**
 * The back-end's `FoodRecordService` (Application/HealthRecords/Services/
 * IFoodRecordService.cs): add a food record, list a day's records, the
 * day's statistics and delete. Amounts are `decimal` in the source and
 * `real` here; sums are exact in both, while the decimal average rounds
 * to 28 significant digits and the real one does not.
 */
module FoodRecordServices {
  import opened Wrappers
  import opened Seqs
  import opened BackendPersistence
  import opened BackendRepositories

  datatype FoodRecordRequest = FoodRecordRequest(
    foodName: string, calories: real, protein: real, carbohydrates: real, fat: real, eatenAt: int,
    mealType: Option<string>, comment: Option<string>, base64Image: Option<string>)

  datatype FoodRecordResponse = FoodRecordResponse(
    id: string, foodName: string, calories: real, protein: real, carbohydrates: real, fat: real,
    eatenAt: int, mealType: Option<string>, comment: Option<string>, photoPath: Option<string>,
    createdAt: int)

  datatype MealTimeStat = MealTimeStat(mealType: string, count: int, calories: real)

  datatype FoodStatisticsResponse = FoodStatisticsResponse(
    totalRecords: int, totalCalories: real, totalProtein: real, totalCarbohydrates: real,
    totalFat: real, averageCalories: real, mealTimeStats: seq<MealTimeStat>)

  /** The record `AddFoodRecordAsync` builds: no key yet, created by `userId`, created now. */
  function NewRecord(userId: string, request: FoodRecordRequest, now: int): FoodRecord
  {
    FoodRecord(EmptyGuid, Audit(now, None, userId, None), userId, request.foodName, request.calories,
               request.protein, request.carbohydrates, request.fat, request.eatenAt, request.mealType,
               None, request.comment)
  }

  /** `Select(r => new FoodRecordResponse { ... })` */
  function ToResponse(r: FoodRecord): FoodRecordResponse
  {
    FoodRecordResponse(r.id, r.foodName, r.calories, r.protein, r.carbohydrates, r.fat, r.eatenAt,
                       r.mealType, r.comment, r.photoPath, r.audit.createdAt)
  }

  // ---------------------------------------------------------------- statistics

  function Calories(r: FoodRecord): real { r.calories }
  function Protein(r: FoodRecord): real { r.protein }
  function Carbohydrates(r: FoodRecord): real { r.carbohydrates }
  function Fat(r: FoodRecord): real { r.fat }
  function StatCalories(s: MealTimeStat): real { s.calories }

  /** The grouping key: the meal type, or "Unknown" when there is none. */
  function MealKey(r: FoodRecord): string { r.mealType.GetOr("Unknown") }

  function MealKeyIs(k: string): FoodRecord -> bool { (r: FoodRecord) => MealKey(r) == k }
  function MealKeyIsNot(k: string): FoodRecord -> bool { (r: FoodRecord) => MealKey(r) != k }

  /**
   * `GroupBy(r => r.MealType ?? "Unknown").Select(...)`: one entry per key
   * in order of first appearance, with the number of records and calories
   * of that key.
   */
  function MealGroups(records: seq<FoodRecord>): seq<MealTimeStat>
    decreases |records|
  {
    if records == [] then []
    else
      var k := MealKey(records[0]);
      var members := Filter(records, MealKeyIs(k));
      [MealTimeStat(k, |members|, SumReal(members, Calories))]
        + MealGroups(Filter(records[1..], MealKeyIsNot(k)))
  }

  function TotalCount(groups: seq<MealTimeStat>): int
  {
    if groups == [] then 0 else groups[0].count + TotalCount(groups[1..])
  }

  /** `GetFoodStatisticsAsync` on the day's records. */
  function Statistics(records: seq<FoodRecord>): FoodStatisticsResponse
  {
    var total := SumReal(records, Calories);
    FoodStatisticsResponse(
      |records|, total, SumReal(records, Protein), SumReal(records, Carbohydrates),
      SumReal(records, Fat), if records == [] then 0.0 else Average(records, Calories),
      MealGroups(records))
  }

  /** The records left after removing a key's group are those of the other keys. */
  lemma RestOfGroups(records: seq<FoodRecord>)
    requires records != []
    ensures var k := MealKey(records[0]);
            && Filter(records, MealKeyIsNot(k)) == Filter(records[1..], MealKeyIsNot(k))
            && Filter(records, MealKeyIs(k)) == [records[0]] + Filter(records[1..], MealKeyIs(k))
  {
  }

  /** The first group and the records left for the others. */
  lemma MealGroupsUnfold(records: seq<FoodRecord>)
    requires records != []
    ensures var k := MealKey(records[0]);
            var members := Filter(records, MealKeyIs(k));
            MealGroups(records) == [MealTimeStat(k, |members|, SumReal(members, Calories))]
                                   + MealGroups(Filter(records[1..], MealKeyIsNot(k)))
  {
  }

  /** The group counts add up to the number of records. */
  lemma {:induction false} MealGroupsCount(records: seq<FoodRecord>)
    ensures TotalCount(MealGroups(records)) == |records|
    decreases |records|
  {
    if records != [] {
      var k := MealKey(records[0]);
      var rest := Filter(records[1..], MealKeyIsNot(k));
      MealGroupsUnfold(records);
      MealGroupsCount(rest);
      RestOfGroups(records);
      FilterCountComplement(records, MealKeyIs(k), MealKeyIsNot(k));
    }
  }

  /** The group calories add up to the total calories. */
  lemma {:induction false} MealGroupsCalories(records: seq<FoodRecord>)
    ensures SumReal(MealGroups(records), StatCalories) == SumReal(records, Calories)
    decreases |records|
  {
    if records != [] {
      var k := MealKey(records[0]);
      var members := Filter(records, MealKeyIs(k));
      var rest := Filter(records[1..], MealKeyIsNot(k));
      var head := MealTimeStat(k, |members|, SumReal(members, Calories));
      var others := Filter(records, MealKeyIsNot(k));
      assert others == rest by {
        RestOfGroups(records);
      }
      calc {
        SumReal(MealGroups(records), StatCalories);
        { MealGroupsUnfold(records); }
        SumReal([head] + MealGroups(rest), StatCalories);
        { SumRealAppend([head], MealGroups(rest), StatCalories); assert [head][..0] == []; }
        head.calories + SumReal(MealGroups(rest), StatCalories);
        { MealGroupsCalories(rest); }
        SumReal(members, Calories) + SumReal(others, Calories);
        { SumRealPartition(records, Calories, MealKeyIs(k), MealKeyIsNot(k)); }
        SumReal(records, Calories);
      }
    }
  }

  function GroupKeys(groups: seq<MealTimeStat>): set<string>
  {
    set s | s in groups :: s.mealType
  }

  function RecordKeys(records: seq<FoodRecord>): set<string>
  {
    set r | r in records :: MealKey(r)
  }

  lemma RecordKeysSplit(records: seq<FoodRecord>)
    requires records != []
    ensures var k := MealKey(records[0]);
            RecordKeys(records) == {k} + RecordKeys(Filter(records[1..], MealKeyIsNot(k)))
  {
    var k := MealKey(records[0]);
    var rest := Filter(records[1..], MealKeyIsNot(k));
    forall key ensures key in RecordKeys(records) <==> key == k || key in RecordKeys(rest) {
      if key in RecordKeys(records) && key != k {
        var r :| r in records && MealKey(r) == key;
        assert r != records[0];
        assert r in records[1..] by {
          var n :| 0 <= n < |records| && records[n] == r;
          assert records[1..][n - 1] == r;
        }
        assert MealKeyIsNot(k)(r);
      }
      if key in RecordKeys(rest) {
        var r :| r in rest && MealKey(r) == key;
        assert r in records[1..];
        assert r in records;
      }
    }
  }

  /** The groups' keys are exactly the records' keys. */
  lemma {:induction false} MealGroupsKeySet(records: seq<FoodRecord>)
    ensures GroupKeys(MealGroups(records)) == RecordKeys(records)
    decreases |records|
  {
    if records != [] {
      var k := MealKey(records[0]);
      var rest := Filter(records[1..], MealKeyIsNot(k));
      var g := MealGroups(records);
      var tail := MealGroups(rest);
      MealGroupsUnfold(records);
      MealGroupsKeySet(rest);
      calc {
        GroupKeys(g);
        { assert g == [g[0]] + tail; }
        ({k} + GroupKeys(tail));
        ({k} + RecordKeys(rest));
        { RecordKeysSplit(records); }
        RecordKeys(records);
      }
    }
  }

  /** A group put in front of groups with other keys keeps the keys distinct. */
  lemma ConsDistinctKeys(head: MealTimeStat, tail: seq<MealTimeStat>)
    requires forall i, j | 0 <= i < j < |tail| :: tail[i].mealType != tail[j].mealType
    requires head.mealType !in GroupKeys(tail)
    ensures var g := [head] + tail;
            forall i, j | 0 <= i < j < |g| :: g[i].mealType != g[j].mealType
  {
    var g := [head] + tail;
    forall i, j | 0 <= i < j < |g| ensures g[i].mealType != g[j].mealType {
      assert g[j] == tail[j - 1];
      if i > 0 {
        assert g[i] == tail[i - 1];
      }
    }
  }

  /** No record left after removing the first record's key has that key. */
  lemma FirstKeyRemoved(records: seq<FoodRecord>)
    requires records != []
    ensures MealKey(records[0]) !in RecordKeys(Filter(records[1..], MealKeyIsNot(MealKey(records[0]))))
  {
    var k := MealKey(records[0]);
    forall r | r in Filter(records[1..], MealKeyIsNot(k)) ensures MealKey(r) != k {
      assert MealKeyIsNot(k)(r);
    }
  }

  /** Every group has a different key, and the keys are exactly the records' keys. */
  lemma {:induction false} MealGroupsKeys(records: seq<FoodRecord>)
    ensures var g := MealGroups(records);
            && (forall i, j | 0 <= i < j < |g| :: g[i].mealType != g[j].mealType)
            && GroupKeys(g) == RecordKeys(records)
    decreases |records|
  {
    MealGroupsKeySet(records);
    if records != [] {
      var k := MealKey(records[0]);
      var rest := Filter(records[1..], MealKeyIsNot(k));
      MealGroupsUnfold(records);
      MealGroupsKeys(rest);
      FirstKeyRemoved(records);
      ConsDistinctKeys(MealGroups(records)[0], MealGroups(rest));
    }
  }

  /** The records of a key other than the first record's are the same before and after removing the first group. */
  lemma OtherKeyFilter(records: seq<FoodRecord>, key: string)
    requires records != [] && key != MealKey(records[0])
    ensures Filter(records, MealKeyIs(key))
            == Filter(Filter(records[1..], MealKeyIsNot(MealKey(records[0]))), MealKeyIs(key))
  {
    var k := MealKey(records[0]);
    FilterConjunction(records[1..], MealKeyIsNot(k), MealKeyIs(key));
    FilterExtensional(records[1..], And(MealKeyIsNot(k), MealKeyIs(key)), MealKeyIs(key));
  }

  /** Each group holds exactly the records of its key: its count and calories are theirs. */
  lemma {:induction false} MealGroupsExact(records: seq<FoodRecord>)
    ensures var g := MealGroups(records);
            forall i | 0 <= i < |g| ::
              && g[i].count == Count(records, MealKeyIs(g[i].mealType))
              && g[i].calories == SumReal(Filter(records, MealKeyIs(g[i].mealType)), Calories)
    decreases |records|
  {
    if records != [] {
      var k := MealKey(records[0]);
      var rest := Filter(records[1..], MealKeyIsNot(k));
      var g := MealGroups(records);
      var tail := MealGroups(rest);
      MealGroupsUnfold(records);
      assert g[1..] == tail;
      MealGroupsExact(rest);
      MealGroupsKeys(rest);
      assert k !in RecordKeys(rest) by {
        forall r | r in rest ensures MealKey(r) != k {
          assert MealKeyIsNot(k)(r);
        }
      }
      forall i | 1 <= i < |g|
        ensures g[i].count == Count(records, MealKeyIs(g[i].mealType))
        ensures g[i].calories == SumReal(Filter(records, MealKeyIs(g[i].mealType)), Calories)
      {
        var key := g[i].mealType;
        assert g[i] == tail[i - 1] && tail[i - 1] in tail;
        assert key in GroupKeys(tail);
        OtherKeyFilter(records, key);
      }
    }
  }

  class FoodRecordService {
    const repository: FoodRecordRepository

    constructor(repository: FoodRecordRepository)
      ensures this.repository == repository
    {
      this.repository := repository;
    }

    /**
     * `AddFoodRecordAsync`: stores one record built from the request under a
     * generated key and returns that key. The save hook sets `CreatedBy` to
     * the context's current user, whatever the service put there.
     */
    method AddFoodRecord(userId: string, request: FoodRecordRequest, freshId: string, now: int) returns (id: string)
      requires repository.context.Valid() && Settled(repository.context.tracker)
      requires freshId != EmptyGuid && !HasKey(repository.context.foodRecords, FoodId, freshId)
      modifies repository.context
      ensures repository.context.Valid() && Settled(repository.context.tracker)
      ensures id == freshId
      ensures repository.context.foodRecords == old(repository.context.foodRecords) +
                [NewRecord(userId, request, now).(id := freshId, audit := AddedAudit(now, repository.context.currentUserId))]
      ensures repository.context.healthRecords == old(repository.context.healthRecords)
    {
      var record := NewRecord(userId, request, now);
      var saved := repository.Add(record, freshId, now);
      id := saved.value.id;
    }

    /** `GetFoodRecordsByDateAsync`: the day's records, one response per record in the same order. */
    method GetFoodRecordsByDate(userId: string, date: int) returns (r: seq<FoodRecordResponse>)
      ensures r == Map(Query(repository.context.foodRecords, EatenOn(userId, date), EatenAt), ToResponse)
    {
      var records := repository.GetByDate(userId, date);
      r := Map(records, ToResponse);
    }

    /** `GetFoodStatisticsAsync`: totals, average and meal groups of the day's records. */
    method GetFoodStatistics(userId: string, date: int) returns (r: FoodStatisticsResponse)
      ensures r == Statistics(Query(repository.context.foodRecords, EatenOn(userId, date), EatenAt))
    {
      var records := repository.GetByDate(userId, date);
      r := Statistics(records);
    }

    /** `DeleteFoodRecordAsync`: false and nothing deleted for an unknown key, else that record deleted. */
    method DeleteFoodRecord(id: string, now: int) returns (deleted: bool)
      requires repository.context.Valid() && Settled(repository.context.tracker)
      modifies repository.context
      ensures repository.context.Valid() && Settled(repository.context.tracker)
      ensures deleted == HasKey(old(repository.context.foodRecords), FoodId, id)
      ensures repository.context.foodRecords == Filter(old(repository.context.foodRecords), KeyIsNot(FoodId, id))
      ensures repository.context.healthRecords == old(repository.context.healthRecords)
    {
      var record := repository.GetById(id);
      if record.None? {
        DeleteAbsentId(repository.context.foodRecords, FoodId, id);
        return false;
      }
      var removed := repository.Delete(record.value, now);
      deleted := true;
    }
  }

  /**
   * The day's statistics count the records; the average is zero for an
   * empty day, and otherwise the mean calories, which lie between those of
   * the lightest and the heaviest record.
   */
  lemma StatisticsAverage(records: seq<FoodRecord>)
    ensures Statistics(records).totalRecords == |records|
    ensures records == [] ==> Statistics(records).averageCalories == 0.0 && Statistics(records).mealTimeStats == []
    ensures records != [] ==> Statistics(records).averageCalories == Average(records, Calories)
    ensures records != [] ==> MinBy(records, Calories) <= Statistics(records).averageCalories <= MaxBy(records, Calories)
  {
    if records != [] {
      AverageBetweenMinMax(records, Calories);
    }
  }

  /** The meal groups partition the day: their counts and calories add up to the totals. */
  lemma StatisticsGroupsAddUp(records: seq<FoodRecord>)
    ensures var s := Statistics(records);
            && TotalCount(s.mealTimeStats) == s.totalRecords
            && SumReal(s.mealTimeStats, StatCalories) == s.totalCalories
  {
    MealGroupsCount(records);
    MealGroupsCalories(records);
  }
}
