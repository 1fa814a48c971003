/**
 * The Web API's record services (src/VitaNote.WebApi/Services): paged
 * queries, add, update, delete and mark-taken over the Entity Framework
 * context, plus today's food and glucose statistics.
 *
 * A `DateTime` is its tick count (`int`), a `Guid` its text. The context's
 * `DbSet`s are sequences in insertion order, and rows with equal sort keys
 * keep that order. Entity Framework runs each query as SQL on SQLite, so
 * `Skip`/`Take` become OFFSET/LIMIT with SQLite's reading of negative counts
 * (`Seqs.Page`, `Seqs.SqlLimitOffset`). `DateTime.UtcNow`, `DateTime.Today`
 * and `Guid.NewGuid()` are parameters.
 */
module WebApiServices {
  import opened Wrappers
  import opened Seqs

  const TicksPerDay: int := 864_000_000_000

  /** `Guid.Empty`: Entity Framework treats an entity with this key as new. */
  const EmptyGuid: string := "00000000-0000-0000-0000-000000000000"

  datatype FoodEntry = FoodEntry(
    id: string, userId: string, createdAt: int, mealType: int, mealTime: int, foodName: string,
    quantity: real, calories: real, carbohydrates: real, protein: real, fat: real,
    gi: Option<real>, gl: Option<real>, source: int, imagePath: Option<string>, notes: Option<string>)

  datatype BloodGlucose = BloodGlucose(
    id: string, userId: string, createdAt: int, value: real, measurementTime: int,
    measurementTimeExact: Option<int>, beforeMealGlucose: Option<real>, afterMealGlucose: Option<real>,
    relatedMeal: Option<int>, notes: Option<string>, deviceName: Option<string>, deviceSerial: Option<string>)

  datatype Medication = Medication(
    id: string, userId: string, createdAt: int, drugName: string, kind: int, dose: real, unit: string,
    timing: int, insulinType: Option<int>, insulinDuration: Option<real>, scheduledTime: int,
    actualTime: Option<int>, isTaken: bool, notes: Option<string>)

  datatype ChatHistory = ChatHistory(
    id: string, userId: string, createdAt: int, role: string, content: string,
    model: Option<string>, context: Option<string>, prompt: Option<string>)

  datatype PagedResult<T> = PagedResult(items: seq<T>, total: int, page: int, pageSize: int)

  /** `SaveChanges` after `Update` of a key no row has: `DbUpdateConcurrencyException`. */
  datatype DbError = ConcurrencyError

  function FoodId(e: FoodEntry): string { e.id }
  function FoodMealTime(e: FoodEntry): int { e.mealTime }
  function GlucoseId(e: BloodGlucose): string { e.id }
  function GlucoseCreatedAt(e: BloodGlucose): int { e.createdAt }
  function MedicationId(e: Medication): string { e.id }
  function MedicationScheduledTime(e: Medication): int { e.scheduledTime }
  function ChatId(e: ChatHistory): string { e.id }
  function ChatCreatedAt(e: ChatHistory): int { e.createdAt }

  /** Food entries of `userId` eaten in `[startDate, endDate]`, both ends included. */
  function FoodInRange(userId: string, startDate: int, endDate: int): FoodEntry -> bool
  {
    (e: FoodEntry) => e.userId == userId && startDate <= e.mealTime <= endDate
  }

  /** Readings of `userId` taken in `[startDate, endDate]`, both ends included. */
  function GlucoseInRange(userId: string, startDate: int, endDate: int): BloodGlucose -> bool
  {
    (e: BloodGlucose) => e.userId == userId && startDate <= e.createdAt <= endDate
  }

  /** Doses of `userId` scheduled in `[startDate, endDate]`, both ends included. */
  function MedicationInRange(userId: string, startDate: int, endDate: int): Medication -> bool
  {
    (e: Medication) => e.userId == userId && startDate <= e.scheduledTime <= endDate
  }

  // ---------------------------------------------------------------- statistics

  /** Food entries of `userId` eaten on the day starting at `today`: `[today, today + 1 day)`. */
  function FoodOnDay(userId: string, today: int): FoodEntry -> bool
  {
    (e: FoodEntry) => e.userId == userId && today <= e.mealTime < today + TicksPerDay
  }

  function GlucoseOnDay(userId: string, today: int): BloodGlucose -> bool
  {
    (e: BloodGlucose) => e.userId == userId && today <= e.createdAt < today + TicksPerDay
  }

  function Calories(e: FoodEntry): real { e.calories }
  function Carbohydrates(e: FoodEntry): real { e.carbohydrates }
  function Protein(e: FoodEntry): real { e.protein }
  function Fat(e: FoodEntry): real { e.fat }
  function Value(e: BloodGlucose): real { e.value }

  function MealIs(t: int): FoodEntry -> bool { (e: FoodEntry) => e.mealType == t }
  function MeasuredAt(t: int): BloodGlucose -> bool { (e: BloodGlucose) => e.measurementTime == t }

  /** The `ByMealType` keys: breakfast, lunch, dinner and snack, for meal types 0 to 3. */
  const MealKeys: seq<string> := ["早餐", "午餐", "晚餐", "加餐"]

  /** The `ByTimeOfDay` keys: fasting, before a meal, 1 h and 2 h after a meal, bedtime, for times 0 to 4. */
  const TimeOfDayKeys: seq<string> := ["空腹", "餐前", "餐后1小时", "餐后2小时", "睡前"]

  datatype FoodStatistics = FoodStatistics(
    totalEntries: int, totalCalories: real, totalCarbohydrates: real, totalProtein: real, totalFat: real,
    byMealType: map<string, real>)

  datatype GlucoseStatistics = GlucoseStatistics(
    totalEntries: int, averageValue: real, minValue: real, maxValue: real, byTimeOfDay: map<string, real>)

  /** The average of one `ByTimeOfDay` slot, 0 when no reading falls in it. */
  function SlotAverage(entries: seq<BloodGlucose>, t: int): (r: real)
    ensures Count(entries, MeasuredAt(t)) == 0 ==> r == 0.0
    ensures Count(entries, MeasuredAt(t)) > 0 ==> r == Average(Filter(entries, MeasuredAt(t)), Value)
  {
    var g := Filter(entries, MeasuredAt(t));
    if |g| > 0 then Average(g, Value) else 0.0
  }

  /** `ByTimeOfDay[key] = …` for each of the five measurement times in turn, starting from an empty map. */
  function BySlot(entries: seq<BloodGlucose>): (m: map<string, real>)
    ensures m.Keys == {TimeOfDayKeys[0], TimeOfDayKeys[1], TimeOfDayKeys[2], TimeOfDayKeys[3], TimeOfDayKeys[4]}
    ensures forall t :: 0 <= t < 5 ==> m[TimeOfDayKeys[t]] == SlotAverage(entries, t)
  {
    assert forall i, j | 0 <= i < j < 5 :: TimeOfDayKeys[i] != TimeOfDayKeys[j] by {
      assert TimeOfDayKeys[0][0] != TimeOfDayKeys[1][0] && TimeOfDayKeys[0][0] != TimeOfDayKeys[4][0];
      assert TimeOfDayKeys[1][0] != TimeOfDayKeys[4][0] && TimeOfDayKeys[2][2] != TimeOfDayKeys[3][2];
    }
    map[][TimeOfDayKeys[0] := SlotAverage(entries, 0)][TimeOfDayKeys[1] := SlotAverage(entries, 1)]
         [TimeOfDayKeys[2] := SlotAverage(entries, 2)][TimeOfDayKeys[3] := SlotAverage(entries, 3)]
         [TimeOfDayKeys[4] := SlotAverage(entries, 4)]
  }

  /** The count, average, minimum and maximum of the day's readings, all 0 without readings. */
  function Summary(entries: seq<BloodGlucose>): (st: GlucoseStatistics)
    ensures st.totalEntries == |entries| && st.byTimeOfDay == map[]
    ensures entries == [] ==> st.averageValue == 0.0 && st.minValue == 0.0 && st.maxValue == 0.0
    ensures entries != [] ==> st.averageValue == Average(entries, Value)
                              && (forall e :: e in entries ==> st.minValue <= e.value <= st.maxValue)
                              && st.minValue == MinBy(entries, Value) && st.maxValue == MaxBy(entries, Value)
                              && st.minValue <= st.averageValue <= st.maxValue
  {
    if |entries| > 0 then
      AverageBetweenMinMax(entries, Value);
      GlucoseStatistics(|entries|, Average(entries, Value), MinBy(entries, Value), MaxBy(entries, Value), map[])
    else GlucoseStatistics(0, 0.0, 0.0, 0.0, map[])
  }

  function SumWhere(entries: seq<FoodEntry>, t: int): real
  {
    SumReal(Filter(entries, MealIs(t)), Calories)
  }

  /** When every meal type is one of the four, the per-meal calorie sums add up to the day's total. */
  lemma {:induction false} MealSumsAddUp(entries: seq<FoodEntry>)
    requires forall e :: e in entries ==> 0 <= e.mealType <= 3
    ensures SumWhere(entries, 0) + SumWhere(entries, 1) + SumWhere(entries, 2) + SumWhere(entries, 3)
            == SumReal(entries, Calories)
  {
    if entries != [] {
      var e, rest := entries[0], entries[1..];
      assert entries == [e] + rest;
      assert forall x :: x in rest ==> x in entries;
      MealSumsAddUp(rest);
      assert SumReal([e], Calories) == e.calories by {
        assert [e][..0] == [];
      }
      SumRealAppend([e], rest, Calories);
      forall t | 0 <= t <= 3
        ensures SumWhere(entries, t) == (if e.mealType == t then e.calories else 0.0) + SumWhere(rest, t)
      {
        if e.mealType == t {
          SumRealAppend([e], Filter(rest, MealIs(t)), Calories);
        }
      }
    }
  }

  // ---------------------------------------------------------------- the context

  /** `ApplicationDbContext`: one set per entity, each keyed by `Id`. */
  class ApplicationDbContext {
    var foodEntries: seq<FoodEntry>
    var bloodGlucoseEntries: seq<BloodGlucose>
    var medications: seq<Medication>
    var chatHistory: seq<ChatHistory>

    ghost predicate Valid()
      reads this
    {
      && UniqueKeys(foodEntries, FoodId)
      && UniqueKeys(bloodGlucoseEntries, GlucoseId)
      && UniqueKeys(medications, MedicationId)
      && UniqueKeys(chatHistory, ChatId)
    }

    constructor()
      ensures Valid()
      ensures foodEntries == [] && bloodGlucoseEntries == [] && medications == [] && chatHistory == []
    {
      foodEntries, bloodGlucoseEntries, medications, chatHistory := [], [], [], [];
    }
  }

  class FoodService {
    const context: ApplicationDbContext

    constructor(context: ApplicationDbContext)
      ensures this.context == context
    {
      this.context := context;
    }

    /** `GetEntriesAsync`: one page of the user's entries in the closed window, newest meal first. */
    method GetEntries(userId: string, startDate: int, endDate: int, page: int, pageSize: int)
      returns (r: PagedResult<FoodEntry>)
      ensures r.total == Count(context.foodEntries, FoodInRange(userId, startDate, endDate))
      ensures r.page == page && r.pageSize == pageSize
      ensures r.items == Page(Query(context.foodEntries, FoodInRange(userId, startDate, endDate), FoodMealTime), page, pageSize)
      ensures forall x :: x in r.items ==> x in context.foodEntries && FoodInRange(userId, startDate, endDate)(x)
      ensures pageSize >= 0 ==> |r.items| <= pageSize
    {
      var query := Query(context.foodEntries, FoodInRange(userId, startDate, endDate), FoodMealTime);
      QuerySound(context.foodEntries, FoodInRange(userId, startDate, endDate), FoodMealTime);
      PageSound(context.foodEntries, FoodInRange(userId, startDate, endDate), FoodMealTime, page, pageSize);
      r := PagedResult(Page(query, page, pageSize), |query|, page, pageSize);
    }

    /** `AddEntryAsync`: the entry is stored under a fresh id and creation time and returned. */
    method AddEntry(entry: FoodEntry, id: string, now: int) returns (r: FoodEntry)
      requires context.Valid() && !HasKey(context.foodEntries, FoodId, id)
      modifies context
      ensures context.Valid()
      ensures r == entry.(id := id, createdAt := now)
      ensures context.foodEntries == old(context.foodEntries) + [r]
      ensures context.bloodGlucoseEntries == old(context.bloodGlucoseEntries)
      ensures context.medications == old(context.medications) && context.chatHistory == old(context.chatHistory)
    {
      r := entry.(id := id, createdAt := now);
      AppendUnique(context.foodEntries, FoodId, r);
      context.foodEntries := context.foodEntries + [r];
    }

    /**
     * `UpdateEntryAsync`: the stored entry with that id is replaced. An entry
     * with the empty key is inserted under a fresh one; any other unknown id
     * makes `SaveChanges` fail and nothing changes.
     */
    method UpdateEntry(entry: FoodEntry, freshId: string) returns (r: Result<FoodEntry, DbError>)
      requires context.Valid() && !HasKey(context.foodEntries, FoodId, freshId)
      modifies context
      ensures context.Valid()
      ensures entry.id == EmptyGuid ==> r == Ok(entry.(id := freshId)) && context.foodEntries == old(context.foodEntries) + [r.value]
      ensures entry.id != EmptyGuid && !HasKey(old(context.foodEntries), FoodId, entry.id) ==>
                r == Err(ConcurrencyError) && context.foodEntries == old(context.foodEntries)
      ensures entry.id != EmptyGuid && HasKey(old(context.foodEntries), FoodId, entry.id) ==>
                r == Ok(entry) && context.foodEntries == Map(old(context.foodEntries), Replace(FoodId, entry))
      ensures context.bloodGlucoseEntries == old(context.bloodGlucoseEntries)
      ensures context.medications == old(context.medications) && context.chatHistory == old(context.chatHistory)
    {
      if entry.id == EmptyGuid {
        r := Ok(entry.(id := freshId));
        AppendUnique(context.foodEntries, FoodId, r.value);
        context.foodEntries := context.foodEntries + [r.value];
      } else if !HasKey(context.foodEntries, FoodId, entry.id) {
        r := Err(ConcurrencyError);
      } else {
        MapKeepsUnique(context.foodEntries, FoodId, Replace(FoodId, entry));
        context.foodEntries := Map(context.foodEntries, Replace(FoodId, entry));
        r := Ok(entry);
      }
    }

    /** `DeleteEntryAsync`: removes the entry with that id; an unknown id changes nothing. */
    method DeleteEntry(entryId: string)
      requires context.Valid()
      modifies context
      ensures context.Valid()
      ensures context.foodEntries == Filter(old(context.foodEntries), KeyIsNot(FoodId, entryId))
      ensures HasKey(old(context.foodEntries), FoodId, entryId) ==> |context.foodEntries| == |old(context.foodEntries)| - 1
      ensures !HasKey(old(context.foodEntries), FoodId, entryId) ==> context.foodEntries == old(context.foodEntries)
      ensures context.bloodGlucoseEntries == old(context.bloodGlucoseEntries)
      ensures context.medications == old(context.medications) && context.chatHistory == old(context.chatHistory)
    {
      if HasKey(context.foodEntries, FoodId, entryId) {
        DeletePresentId(context.foodEntries, FoodId, entryId);
        FilterUnique(context.foodEntries, FoodId, KeyIsNot(FoodId, entryId));
        context.foodEntries := Filter(context.foodEntries, KeyIsNot(FoodId, entryId));
      } else {
        DeleteAbsentId(context.foodEntries, FoodId, entryId);
      }
    }

    /**
     * `GetTodayStatisticsAsync`: counts and sums over the user's entries in
     * `[today, tomorrow)`, and the calories of each of the four meal types.
     */
    method GetTodayStatistics(userId: string, today: int) returns (stats: FoodStatistics)
      ensures var entries := Filter(context.foodEntries, FoodOnDay(userId, today));
              && stats.totalEntries == Count(context.foodEntries, FoodOnDay(userId, today))
              && stats.totalCalories == SumReal(entries, Calories)
              && stats.totalCarbohydrates == SumReal(entries, Carbohydrates)
              && stats.totalProtein == SumReal(entries, Protein)
              && stats.totalFat == SumReal(entries, Fat)
              && stats.byMealType.Keys == {MealKeys[0], MealKeys[1], MealKeys[2], MealKeys[3]}
              && (forall t :: 0 <= t < 4 ==> stats.byMealType[MealKeys[t]] == SumWhere(entries, t))
    {
      var entries := Filter(context.foodEntries, FoodOnDay(userId, today));
      stats := FoodStatistics(|entries|, SumReal(entries, Calories), SumReal(entries, Carbohydrates),
                              SumReal(entries, Protein), SumReal(entries, Fat), map[]);
      stats := stats.(byMealType := stats.byMealType[MealKeys[0] := SumWhere(entries, 0)]);
      stats := stats.(byMealType := stats.byMealType[MealKeys[1] := SumWhere(entries, 1)]);
      stats := stats.(byMealType := stats.byMealType[MealKeys[2] := SumWhere(entries, 2)]);
      stats := stats.(byMealType := stats.byMealType[MealKeys[3] := SumWhere(entries, 3)]);
    }
  }

  class GlucoseService {
    const context: ApplicationDbContext

    constructor(context: ApplicationDbContext)
      ensures this.context == context
    {
      this.context := context;
    }

    /** `GetEntriesAsync`: one page of the user's readings in the closed window, newest first. */
    method GetEntries(userId: string, startDate: int, endDate: int, page: int, pageSize: int)
      returns (r: PagedResult<BloodGlucose>)
      ensures r.total == Count(context.bloodGlucoseEntries, GlucoseInRange(userId, startDate, endDate))
      ensures r.page == page && r.pageSize == pageSize
      ensures r.items == Page(Query(context.bloodGlucoseEntries, GlucoseInRange(userId, startDate, endDate), GlucoseCreatedAt), page, pageSize)
      ensures forall x :: x in r.items ==> x in context.bloodGlucoseEntries && GlucoseInRange(userId, startDate, endDate)(x)
      ensures pageSize >= 0 ==> |r.items| <= pageSize
    {
      var query := Query(context.bloodGlucoseEntries, GlucoseInRange(userId, startDate, endDate), GlucoseCreatedAt);
      QuerySound(context.bloodGlucoseEntries, GlucoseInRange(userId, startDate, endDate), GlucoseCreatedAt);
      PageSound(context.bloodGlucoseEntries, GlucoseInRange(userId, startDate, endDate), GlucoseCreatedAt, page, pageSize);
      r := PagedResult(Page(query, page, pageSize), |query|, page, pageSize);
    }

    /** `AddEntryAsync` */
    method AddEntry(entry: BloodGlucose, id: string, now: int) returns (r: BloodGlucose)
      requires context.Valid() && !HasKey(context.bloodGlucoseEntries, GlucoseId, id)
      modifies context
      ensures context.Valid()
      ensures r == entry.(id := id, createdAt := now)
      ensures context.bloodGlucoseEntries == old(context.bloodGlucoseEntries) + [r]
      ensures context.foodEntries == old(context.foodEntries)
      ensures context.medications == old(context.medications) && context.chatHistory == old(context.chatHistory)
    {
      r := entry.(id := id, createdAt := now);
      AppendUnique(context.bloodGlucoseEntries, GlucoseId, r);
      context.bloodGlucoseEntries := context.bloodGlucoseEntries + [r];
    }

    /** `UpdateEntryAsync`, with the same three outcomes as the food service's. */
    method UpdateEntry(entry: BloodGlucose, freshId: string) returns (r: Result<BloodGlucose, DbError>)
      requires context.Valid() && !HasKey(context.bloodGlucoseEntries, GlucoseId, freshId)
      modifies context
      ensures context.Valid()
      ensures entry.id == EmptyGuid ==> r == Ok(entry.(id := freshId)) && context.bloodGlucoseEntries == old(context.bloodGlucoseEntries) + [r.value]
      ensures entry.id != EmptyGuid && !HasKey(old(context.bloodGlucoseEntries), GlucoseId, entry.id) ==>
                r == Err(ConcurrencyError) && context.bloodGlucoseEntries == old(context.bloodGlucoseEntries)
      ensures entry.id != EmptyGuid && HasKey(old(context.bloodGlucoseEntries), GlucoseId, entry.id) ==>
                r == Ok(entry) && context.bloodGlucoseEntries == Map(old(context.bloodGlucoseEntries), Replace(GlucoseId, entry))
      ensures context.foodEntries == old(context.foodEntries)
      ensures context.medications == old(context.medications) && context.chatHistory == old(context.chatHistory)
    {
      if entry.id == EmptyGuid {
        r := Ok(entry.(id := freshId));
        AppendUnique(context.bloodGlucoseEntries, GlucoseId, r.value);
        context.bloodGlucoseEntries := context.bloodGlucoseEntries + [r.value];
      } else if !HasKey(context.bloodGlucoseEntries, GlucoseId, entry.id) {
        r := Err(ConcurrencyError);
      } else {
        MapKeepsUnique(context.bloodGlucoseEntries, GlucoseId, Replace(GlucoseId, entry));
        context.bloodGlucoseEntries := Map(context.bloodGlucoseEntries, Replace(GlucoseId, entry));
        r := Ok(entry);
      }
    }

    /** `DeleteEntryAsync` */
    method DeleteEntry(entryId: string)
      requires context.Valid()
      modifies context
      ensures context.Valid()
      ensures context.bloodGlucoseEntries == Filter(old(context.bloodGlucoseEntries), KeyIsNot(GlucoseId, entryId))
      ensures HasKey(old(context.bloodGlucoseEntries), GlucoseId, entryId) ==>
                |context.bloodGlucoseEntries| == |old(context.bloodGlucoseEntries)| - 1
      ensures !HasKey(old(context.bloodGlucoseEntries), GlucoseId, entryId) ==>
                context.bloodGlucoseEntries == old(context.bloodGlucoseEntries)
      ensures context.foodEntries == old(context.foodEntries)
      ensures context.medications == old(context.medications) && context.chatHistory == old(context.chatHistory)
    {
      if HasKey(context.bloodGlucoseEntries, GlucoseId, entryId) {
        DeletePresentId(context.bloodGlucoseEntries, GlucoseId, entryId);
        FilterUnique(context.bloodGlucoseEntries, GlucoseId, KeyIsNot(GlucoseId, entryId));
        context.bloodGlucoseEntries := Filter(context.bloodGlucoseEntries, KeyIsNot(GlucoseId, entryId));
      } else {
        DeleteAbsentId(context.bloodGlucoseEntries, GlucoseId, entryId);
      }
    }

    /**
     * `GetTodayStatisticsAsync`: count, average, minimum and maximum over the
     * user's readings in `[today, tomorrow)`, all 0 without readings, and the
     * average of each of the five reported measurement times.
     */
    method GetTodayStatistics(userId: string, today: int) returns (stats: GlucoseStatistics)
      ensures var entries := Filter(context.bloodGlucoseEntries, GlucoseOnDay(userId, today));
              && stats.totalEntries == Count(context.bloodGlucoseEntries, GlucoseOnDay(userId, today))
              && (entries == [] ==> stats.averageValue == 0.0 && stats.minValue == 0.0 && stats.maxValue == 0.0)
              && (entries != [] ==> stats.averageValue == Average(entries, Value)
                                    && (forall e :: e in entries ==> stats.minValue <= e.value <= stats.maxValue)
                                    && stats.minValue == MinBy(entries, Value) && stats.maxValue == MaxBy(entries, Value)
                                    && stats.minValue <= stats.averageValue <= stats.maxValue)
              && stats.byTimeOfDay.Keys == {TimeOfDayKeys[0], TimeOfDayKeys[1], TimeOfDayKeys[2], TimeOfDayKeys[3], TimeOfDayKeys[4]}
              && (forall t :: 0 <= t < 5 ==> stats.byTimeOfDay[TimeOfDayKeys[t]] == SlotAverage(entries, t))
    {
      var entries := Filter(context.bloodGlucoseEntries, GlucoseOnDay(userId, today));
      stats := Summary(entries);
      stats := stats.(byTimeOfDay := BySlot(entries));
    }
  }

  /** The dose after `MarkTakenAsync`: taken, at `actualTime`, every other field as it was. */
  function Taken(m: Medication, actualTime: int): (r: Medication)
    ensures r.isTaken && r.actualTime == Some(actualTime)
    ensures r.(isTaken := m.isTaken, actualTime := m.actualTime) == m
  {
    m.(isTaken := true, actualTime := Some(actualTime))
  }

  function MarkIfId(id: string, actualTime: int): Medication -> Medication
  {
    (m: Medication) => if m.id == id then Taken(m, actualTime) else m
  }

  class MedicationService {
    const context: ApplicationDbContext

    constructor(context: ApplicationDbContext)
      ensures this.context == context
    {
      this.context := context;
    }

    /** `GetEntriesAsync`: one page of the user's doses scheduled in the closed window, latest first. */
    method GetEntries(userId: string, startDate: int, endDate: int, page: int, pageSize: int)
      returns (r: PagedResult<Medication>)
      ensures r.total == Count(context.medications, MedicationInRange(userId, startDate, endDate))
      ensures r.page == page && r.pageSize == pageSize
      ensures r.items == Page(Query(context.medications, MedicationInRange(userId, startDate, endDate), MedicationScheduledTime), page, pageSize)
      ensures forall x :: x in r.items ==> x in context.medications && MedicationInRange(userId, startDate, endDate)(x)
      ensures pageSize >= 0 ==> |r.items| <= pageSize
    {
      var query := Query(context.medications, MedicationInRange(userId, startDate, endDate), MedicationScheduledTime);
      QuerySound(context.medications, MedicationInRange(userId, startDate, endDate), MedicationScheduledTime);
      PageSound(context.medications, MedicationInRange(userId, startDate, endDate), MedicationScheduledTime, page, pageSize);
      r := PagedResult(Page(query, page, pageSize), |query|, page, pageSize);
    }

    /** `AddEntryAsync`: a fresh id and creation time, and never taken, whatever the caller sent. */
    method AddEntry(entry: Medication, id: string, now: int) returns (r: Medication)
      requires context.Valid() && !HasKey(context.medications, MedicationId, id)
      modifies context
      ensures context.Valid()
      ensures r == entry.(id := id, createdAt := now, isTaken := false)
      ensures context.medications == old(context.medications) + [r]
      ensures context.foodEntries == old(context.foodEntries)
      ensures context.bloodGlucoseEntries == old(context.bloodGlucoseEntries) && context.chatHistory == old(context.chatHistory)
    {
      r := entry.(id := id, createdAt := now, isTaken := false);
      AppendUnique(context.medications, MedicationId, r);
      context.medications := context.medications + [r];
    }

    /** `UpdateEntryAsync`, with the same three outcomes as the food service's. */
    method UpdateEntry(entry: Medication, freshId: string) returns (r: Result<Medication, DbError>)
      requires context.Valid() && !HasKey(context.medications, MedicationId, freshId)
      modifies context
      ensures context.Valid()
      ensures entry.id == EmptyGuid ==> r == Ok(entry.(id := freshId)) && context.medications == old(context.medications) + [r.value]
      ensures entry.id != EmptyGuid && !HasKey(old(context.medications), MedicationId, entry.id) ==>
                r == Err(ConcurrencyError) && context.medications == old(context.medications)
      ensures entry.id != EmptyGuid && HasKey(old(context.medications), MedicationId, entry.id) ==>
                r == Ok(entry) && context.medications == Map(old(context.medications), Replace(MedicationId, entry))
      ensures context.foodEntries == old(context.foodEntries)
      ensures context.bloodGlucoseEntries == old(context.bloodGlucoseEntries) && context.chatHistory == old(context.chatHistory)
    {
      if entry.id == EmptyGuid {
        r := Ok(entry.(id := freshId));
        AppendUnique(context.medications, MedicationId, r.value);
        context.medications := context.medications + [r.value];
      } else if !HasKey(context.medications, MedicationId, entry.id) {
        r := Err(ConcurrencyError);
      } else {
        MapKeepsUnique(context.medications, MedicationId, Replace(MedicationId, entry));
        context.medications := Map(context.medications, Replace(MedicationId, entry));
        r := Ok(entry);
      }
    }

    /** `DeleteEntryAsync` */
    method DeleteEntry(entryId: string)
      requires context.Valid()
      modifies context
      ensures context.Valid()
      ensures context.medications == Filter(old(context.medications), KeyIsNot(MedicationId, entryId))
      ensures HasKey(old(context.medications), MedicationId, entryId) ==> |context.medications| == |old(context.medications)| - 1
      ensures !HasKey(old(context.medications), MedicationId, entryId) ==> context.medications == old(context.medications)
      ensures context.foodEntries == old(context.foodEntries)
      ensures context.bloodGlucoseEntries == old(context.bloodGlucoseEntries) && context.chatHistory == old(context.chatHistory)
    {
      if HasKey(context.medications, MedicationId, entryId) {
        DeletePresentId(context.medications, MedicationId, entryId);
        FilterUnique(context.medications, MedicationId, KeyIsNot(MedicationId, entryId));
        context.medications := Filter(context.medications, KeyIsNot(MedicationId, entryId));
      } else {
        DeleteAbsentId(context.medications, MedicationId, entryId);
      }
    }

    /** `MarkTakenAsync`: only the dose with that id changes; an unknown id changes nothing. */
    method MarkTaken(medicationId: string, actualTime: int)
      requires context.Valid()
      modifies context
      ensures context.Valid()
      ensures |context.medications| == |old(context.medications)|
      ensures forall i :: 0 <= i < |context.medications| ==>
                context.medications[i] == if old(context.medications)[i].id == medicationId
                                          then Taken(old(context.medications)[i], actualTime)
                                          else old(context.medications)[i]
      ensures !HasKey(old(context.medications), MedicationId, medicationId) ==> context.medications == old(context.medications)
      ensures context.foodEntries == old(context.foodEntries)
      ensures context.bloodGlucoseEntries == old(context.bloodGlucoseEntries) && context.chatHistory == old(context.chatHistory)
    {
      if HasKey(context.medications, MedicationId, medicationId) {
        MapKeepsUnique(context.medications, MedicationId, MarkIfId(medicationId, actualTime));
        context.medications := Map(context.medications, MarkIfId(medicationId, actualTime));
      }
    }
  }

  /** The user's messages, newest first, as `LIMIT take`. */
  function History(chats: seq<ChatHistory>, userId: string, take: int): seq<ChatHistory>
  {
    SqlLimitOffset(Query(chats, (h: ChatHistory) => h.userId == userId, ChatCreatedAt), take, 0)
  }

  /**
   * The history holds only the user's messages, newest first: no more than
   * `take` of them, and all of them when `take` reaches their number or is
   * negative (SQLite's `LIMIT -1`).
   */
  lemma HistorySound(chats: seq<ChatHistory>, userId: string, take: int)
    ensures var h := History(chats, userId, take);
            && (forall c :: c in h ==> c in chats && c.userId == userId)
            && SortedBy(h, Descending(ChatCreatedAt))
            && (take >= 0 ==> |h| <= take)
            && (take < 0 || take >= Count(chats, (c: ChatHistory) => c.userId == userId) ==>
                  |h| == Count(chats, (c: ChatHistory) => c.userId == userId))
  {
    var p := (c: ChatHistory) => c.userId == userId;
    QuerySound(chats, p, ChatCreatedAt);
    PageSound(chats, p, ChatCreatedAt, 1, take);
    assert Drop(Query(chats, p, ChatCreatedAt), 0) == Query(chats, p, ChatCreatedAt);
  }

  class ChatService {
    const context: ApplicationDbContext

    constructor(context: ApplicationDbContext)
      ensures this.context == context
    {
      this.context := context;
    }

    /** `SaveMessageAsync`: appends one message built from the arguments and returns it. */
    method SaveMessage(userId: string, role: string, content: string, model: Option<string>, ctx: Option<string>,
                       id: string, now: int) returns (r: ChatHistory)
      requires context.Valid() && !HasKey(context.chatHistory, ChatId, id)
      modifies context
      ensures context.Valid()
      ensures r == ChatHistory(id, userId, now, role, content, model, ctx, None)
      ensures context.chatHistory == old(context.chatHistory) + [r]
      ensures context.foodEntries == old(context.foodEntries)
      ensures context.bloodGlucoseEntries == old(context.bloodGlucoseEntries) && context.medications == old(context.medications)
    {
      r := ChatHistory(id, userId, now, role, content, model, ctx, None);
      AppendUnique(context.chatHistory, ChatId, r);
      context.chatHistory := context.chatHistory + [r];
    }

    /** `GetHistoryAsync` */
    method GetHistory(userId: string, take: int) returns (r: seq<ChatHistory>)
      ensures r == History(context.chatHistory, userId, take)
      ensures forall c :: c in r ==> c in context.chatHistory && c.userId == userId
      ensures take >= 0 ==> |r| <= take
    {
      HistorySound(context.chatHistory, userId, take);
      r := History(context.chatHistory, userId, take);
    }
  }
}
