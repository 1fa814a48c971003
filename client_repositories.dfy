/**
 * The desktop client's repositories (services/repositories/index.ts): the
 * mappers between the client's camelCase records and the commands'
 * snake_case records, and the repository calls that wrap each command.
 *
 * A client record that may lack fields (`Partial<T>`) is a draft whose every
 * field is an `Option`. A command argument is deserialised on the Rust side:
 * a missing required field makes the invoke reject, which the decoders below
 * model by returning `None`. The client's food, glucose and medication
 * records carry the same fields as the command records, so those are shared
 * with `HealthStore`; the client user differs (it has no password hash).
 */
module ClientRepositories {
  import opened Wrappers
  import opened Seqs
  import opened Timestamps
  import HS = HealthStore

  /** How a repository call fails: the invoke rejected, or the wrapper threw its own error. */
  datatype Failure = InvokeRejected | Thrown(message: string)

  /** `if (!response.success || !response.data) throw new Error(response.message || fallback)` */
  function Unwrap<T>(response: HS.ApiResponse<T>, fallback: string): (r: Result<T, Failure>)
    ensures r.Ok? <==> response.success && response.data.Some?
    ensures r.Ok? ==> r.value == response.data.value
  {
    if !response.success || response.data.None? then
      Err(Thrown(if response.message.Some? && response.message.value != "" then response.message.value else fallback))
    else Ok(response.data.value)
  }

  // ---------------------------------------------------------------- users

  datatype UserDraft = UserDraft(
    id: Option<string>, username: Option<string>, email: Option<string>, phone: Option<string>,
    passwordHash: Option<string>, createdAt: Option<string>, birthday: Option<string>,
    gender: Option<int>, height: Option<real>, diabetesType: Option<int>,
    diagnosisDate: Option<string>, treatmentPlan: Option<int>, targetWeight: Option<real>,
    targetHbA1c: Option<real>, targetCalories: Option<real>, targetCarbohydrates: Option<real>)

  /** The client's user record: everything the command returns except the password hash. */
  datatype ClientUser = ClientUser(
    id: string, username: string, email: string, phone: Option<string>, createdAt: string,
    birthday: Option<string>, gender: int, height: real, diabetesType: int,
    diagnosisDate: Option<string>, treatmentPlan: int, targetWeight: Option<real>,
    targetHbA1c: Option<real>, targetCalories: Option<real>, targetCarbohydrates: Option<real>)

  /** `toTauriUser`: field renaming, with 0 for a missing gender, height, diabetes type or treatment plan. */
  function ToTauriUser(u: UserDraft): (w: UserDraft)
    ensures w.gender == Some(u.gender.GetOr(0)) && w.height == Some(u.height.GetOr(0.0))
    ensures w.diabetesType == Some(u.diabetesType.GetOr(0)) && w.treatmentPlan == Some(u.treatmentPlan.GetOr(0))
    ensures w.(gender := u.gender, height := u.height, diabetesType := u.diabetesType, treatmentPlan := u.treatmentPlan) == u
  {
    u.(gender := Some(u.gender.GetOr(0)), height := Some(u.height.GetOr(0.0)),
       diabetesType := Some(u.diabetesType.GetOr(0)), treatmentPlan := Some(u.treatmentPlan.GetOr(0)))
  }

  /** The command's deserialisation of a user argument: every non-optional field must be present. */
  function DecodeUser(w: UserDraft): (r: Option<HS.User>)
    ensures r.Some? <==> w.id.Some? && w.username.Some? && w.email.Some? && w.passwordHash.Some?
                         && w.createdAt.Some? && w.gender.Some? && w.height.Some?
                         && w.diabetesType.Some? && w.treatmentPlan.Some?
  {
    if w.id.Some? && w.username.Some? && w.email.Some? && w.passwordHash.Some? && w.createdAt.Some?
       && w.gender.Some? && w.height.Some? && w.diabetesType.Some? && w.treatmentPlan.Some?
    then Some(HS.User(w.id.value, w.username.value, w.email.value, w.phone, w.passwordHash.value,
                      w.createdAt.value, w.birthday, w.gender.value, w.height.value, w.diabetesType.value,
                      w.diagnosisDate, w.treatmentPlan.value, w.targetWeight, w.targetHbA1c,
                      w.targetCalories, w.targetCarbohydrates))
    else None
  }

  /** `fromTauriUser`: copies every field but `password_hash`. */
  function FromTauriUser(u: HS.User): ClientUser
  {
    ClientUser(u.id, u.username, u.email, u.phone, u.createdAt, u.birthday, u.gender, u.height,
               u.diabetesType, u.diagnosisDate, u.treatmentPlan, u.targetWeight, u.targetHbA1c,
               u.targetCalories, u.targetCarbohydrates)
  }

  /** A client user as a fully populated `Partial<User>` (it carries no password hash). */
  function UserDraftOf(c: ClientUser): UserDraft
  {
    UserDraft(Some(c.id), Some(c.username), Some(c.email), c.phone, None, Some(c.createdAt), c.birthday,
              Some(c.gender), Some(c.height), Some(c.diabetesType), c.diagnosisDate, Some(c.treatmentPlan),
              c.targetWeight, c.targetHbA1c, c.targetCalories, c.targetCarbohydrates)
  }

  /** The password hash never reaches the client: records differing only in it map to the same client user. */
  lemma FromTauriUserDropsHash(u: HS.User, hash: string)
    ensures FromTauriUser(u.(passwordHash := hash)) == FromTauriUser(u)
  {
  }

  /** A client user sent with some hash and read back is the same client user. */
  lemma UserRoundTrip(c: ClientUser, hash: string)
    ensures var w := ToTauriUser(UserDraftOf(c)).(passwordHash := Some(hash));
            DecodeUser(w).Some? && FromTauriUser(DecodeUser(w).value) == c
  {
  }

  /** The argument `createUser` sends: a fresh id and creation time, and `password_hash || ''`. */
  function NewUserPayload(data: UserDraft, id: string, now: string): UserDraft
  {
    ToTauriUser(data).(id := Some(id), createdAt := Some(now),
                       passwordHash := Some(if data.passwordHash.Some? then data.passwordHash.value else ""))
  }

  /**
   * The argument `updateUser` sends as written: the client's camelCase record
   * itself. Only the fields whose snake_case and camelCase names coincide
   * reach the command; `password_hash`, `created_at`, `diabetes_type`,
   * `diagnosis_date`, `treatment_plan` and the targets are missing.
   */
  function ClientUserAsSent(c: ClientUser): UserDraft
  {
    UserDraft(Some(c.id), Some(c.username), Some(c.email), c.phone, None, None, c.birthday,
              Some(c.gender), Some(c.height), None, None, None, None, None, None, None)
  }

  /** Whatever the user, the as-written update argument fails to deserialise. */
  lemma UpdateUserAlwaysRejected(c: ClientUser)
    ensures DecodeUser(ClientUserAsSent(c)).None?
  {
  }

  /**
   * The update argument as evidently intended: the record converted with
   * `toTauriUser`, with an empty password hash (the UPDATE does not write it).
   */
  function UpdatePayload(c: ClientUser): (w: UserDraft)
    ensures DecodeUser(w).Some?
    ensures FromTauriUser(DecodeUser(w).value) == c
  {
    ToTauriUser(UserDraftOf(c)).(passwordHash := Some(""))
  }

  // ---------------------------------------------------------------- food entries

  datatype FoodDraft = FoodDraft(
    id: Option<string>, userId: Option<string>, createdAt: Option<string>, mealType: Option<int>,
    mealTime: Option<string>, foodName: Option<string>, quantity: Option<real>, calories: Option<real>,
    carbohydrates: Option<real>, protein: Option<real>, fat: Option<real>, gi: Option<real>,
    gl: Option<real>, source: Option<int>, imagePath: Option<string>, notes: Option<string>)

  /** `toTauriFoodEntry`: 0 for a missing meal type or source, every other field as given. */
  function ToTauriFood(e: FoodDraft): (w: FoodDraft)
    ensures w.mealType == Some(e.mealType.GetOr(0)) && w.source == Some(e.source.GetOr(0))
    ensures w.(mealType := e.mealType, source := e.source) == e
  {
    e.(mealType := Some(e.mealType.GetOr(0)), source := Some(e.source.GetOr(0)))
  }

  function DecodeFood(w: FoodDraft): (r: Option<HS.FoodEntry>)
    ensures r.Some? <==> w.id.Some? && w.userId.Some? && w.createdAt.Some? && w.mealType.Some?
                         && w.mealTime.Some? && w.foodName.Some? && w.quantity.Some? && w.calories.Some?
                         && w.carbohydrates.Some? && w.protein.Some? && w.fat.Some? && w.source.Some?
  {
    if w.id.Some? && w.userId.Some? && w.createdAt.Some? && w.mealType.Some? && w.mealTime.Some?
       && w.foodName.Some? && w.quantity.Some? && w.calories.Some? && w.carbohydrates.Some?
       && w.protein.Some? && w.fat.Some? && w.source.Some?
    then Some(HS.FoodEntry(w.id.value, w.userId.value, w.createdAt.value, w.mealType.value, w.mealTime.value,
                           w.foodName.value, w.quantity.value, w.calories.value, w.carbohydrates.value,
                           w.protein.value, w.fat.value, w.gi, w.gl, w.source.value, w.imagePath, w.notes))
    else None
  }

  function FoodDraftOf(e: HS.FoodEntry): FoodDraft
  {
    FoodDraft(Some(e.id), Some(e.userId), Some(e.createdAt), Some(e.mealType), Some(e.mealTime),
              Some(e.foodName), Some(e.quantity), Some(e.calories), Some(e.carbohydrates), Some(e.protein),
              Some(e.fat), e.gi, e.gl, Some(e.source), e.imagePath, e.notes)
  }

  /** A fully populated entry survives `toTauriFoodEntry` and the trip back unchanged. */
  lemma FoodRoundTrip(e: HS.FoodEntry)
    ensures DecodeFood(ToTauriFood(FoodDraftOf(e))) == Some(e)
  {
  }

  // ---------------------------------------------------------------- blood glucose

  datatype GlucoseDraft = GlucoseDraft(
    id: Option<string>, userId: Option<string>, createdAt: Option<string>, value: Option<real>,
    measurementTime: Option<int>, measurementTimeExact: Option<string>, beforeMealGlucose: Option<real>,
    afterMealGlucose: Option<real>, relatedMeal: Option<int>, notes: Option<string>,
    deviceName: Option<string>, deviceSerial: Option<string>)

  /** `toTauriBloodGlucose`: 0 for a missing measurement time. */
  function ToTauriGlucose(e: GlucoseDraft): (w: GlucoseDraft)
    ensures w.measurementTime == Some(e.measurementTime.GetOr(0))
    ensures w.(measurementTime := e.measurementTime) == e
  {
    e.(measurementTime := Some(e.measurementTime.GetOr(0)))
  }

  function DecodeGlucose(w: GlucoseDraft): (r: Option<HS.BloodGlucose>)
    ensures r.Some? <==> w.id.Some? && w.userId.Some? && w.createdAt.Some? && w.value.Some? && w.measurementTime.Some?
  {
    if w.id.Some? && w.userId.Some? && w.createdAt.Some? && w.value.Some? && w.measurementTime.Some?
    then Some(HS.BloodGlucose(w.id.value, w.userId.value, w.createdAt.value, w.value.value, w.measurementTime.value,
                              w.measurementTimeExact, w.beforeMealGlucose, w.afterMealGlucose, w.relatedMeal,
                              w.notes, w.deviceName, w.deviceSerial))
    else None
  }

  function GlucoseDraftOf(e: HS.BloodGlucose): GlucoseDraft
  {
    GlucoseDraft(Some(e.id), Some(e.userId), Some(e.createdAt), Some(e.value), Some(e.measurementTime),
                 e.measurementTimeExact, e.beforeMealGlucose, e.afterMealGlucose, e.relatedMeal,
                 e.notes, e.deviceName, e.deviceSerial)
  }

  lemma GlucoseRoundTrip(e: HS.BloodGlucose)
    ensures DecodeGlucose(ToTauriGlucose(GlucoseDraftOf(e))) == Some(e)
  {
  }

  // ---------------------------------------------------------------- medications

  datatype MedicationDraft = MedicationDraft(
    id: Option<string>, userId: Option<string>, createdAt: Option<string>, drugName: Option<string>,
    kind: Option<int>, dose: Option<real>, unit: Option<string>, timing: Option<int>,
    insulinType: Option<int>, insulinDuration: Option<int>, scheduledTime: Option<string>,
    actualTime: Option<string>, isTaken: Option<bool>, notes: Option<string>)

  /** `toTauriMedication`: 0 for a missing type or timing. */
  function ToTauriMedication(e: MedicationDraft): (w: MedicationDraft)
    ensures w.kind == Some(e.kind.GetOr(0)) && w.timing == Some(e.timing.GetOr(0))
    ensures w.(kind := e.kind, timing := e.timing) == e
  {
    e.(kind := Some(e.kind.GetOr(0)), timing := Some(e.timing.GetOr(0)))
  }

  function DecodeMedication(w: MedicationDraft): (r: Option<HS.Medication>)
    ensures r.Some? <==> w.id.Some? && w.userId.Some? && w.createdAt.Some? && w.drugName.Some? && w.kind.Some?
                         && w.dose.Some? && w.unit.Some? && w.timing.Some? && w.scheduledTime.Some? && w.isTaken.Some?
  {
    if w.id.Some? && w.userId.Some? && w.createdAt.Some? && w.drugName.Some? && w.kind.Some? && w.dose.Some?
       && w.unit.Some? && w.timing.Some? && w.scheduledTime.Some? && w.isTaken.Some?
    then Some(HS.Medication(w.id.value, w.userId.value, w.createdAt.value, w.drugName.value, w.kind.value,
                            w.dose.value, w.unit.value, w.timing.value, w.insulinType, w.insulinDuration,
                            w.scheduledTime.value, w.actualTime, w.isTaken.value, w.notes))
    else None
  }

  function MedicationDraftOf(e: HS.Medication): MedicationDraft
  {
    MedicationDraft(Some(e.id), Some(e.userId), Some(e.createdAt), Some(e.drugName), Some(e.kind), Some(e.dose),
                    Some(e.unit), Some(e.timing), e.insulinType, e.insulinDuration, Some(e.scheduledTime),
                    e.actualTime, Some(e.isTaken), e.notes)
  }

  lemma MedicationRoundTrip(e: HS.Medication)
    ensures DecodeMedication(ToTauriMedication(MedicationDraftOf(e))) == Some(e)
  {
  }

  // ---------------------------------------------------------------- statistics

  datatype FoodStats = FoodStats(totalEntries: int, totalCalories: real, totalCarbohydrates: real,
                                 totalProtein: real, totalFat: real)

  function Calories(e: HS.FoodEntry): real { e.calories }
  function Carbohydrates(e: HS.FoodEntry): real { e.carbohydrates }
  function Protein(e: HS.FoodEntry): real { e.protein }
  function Fat(e: HS.FoodEntry): real { e.fat }

  /** The `reduce` over the items: one count and four running sums. */
  method SumFoodStats(items: seq<HS.FoodEntry>) returns (acc: FoodStats)
    ensures acc.totalEntries == |items|
    ensures acc.totalCalories == SumReal(items, Calories) && acc.totalCarbohydrates == SumReal(items, Carbohydrates)
    ensures acc.totalProtein == SumReal(items, Protein) && acc.totalFat == SumReal(items, Fat)
  {
    acc := FoodStats(0, 0.0, 0.0, 0.0, 0.0);
    for i := 0 to |items|
      invariant acc.totalEntries == i
      invariant acc.totalCalories == SumReal(items[..i], Calories) && acc.totalCarbohydrates == SumReal(items[..i], Carbohydrates)
      invariant acc.totalProtein == SumReal(items[..i], Protein) && acc.totalFat == SumReal(items[..i], Fat)
    {
      assert items[..i + 1][..i] == items[..i];
      var item := items[i];
      acc := acc.(totalEntries := acc.totalEntries + 1,
                  totalCalories := acc.totalCalories + item.calories,
                  totalCarbohydrates := acc.totalCarbohydrates + item.carbohydrates,
                  totalProtein := acc.totalProtein + item.protein,
                  totalFat := acc.totalFat + item.fat);
    }
    assert items[..|items|] == items;
  }

  datatype GlucoseStats = GlucoseStats(totalEntries: int, averageValue: real, minValue: real, maxValue: real)

  function GlucoseValue(g: HS.BloodGlucose): real { g.value }

  /** The glucose statistics: all zeros without items, otherwise count, mean, minimum and maximum. */
  function GlucoseStatsOf(items: seq<HS.BloodGlucose>): (st: GlucoseStats)
    ensures items == [] ==> st == GlucoseStats(0, 0.0, 0.0, 0.0)
    ensures st.totalEntries == |items|
    ensures items != [] ==> st.minValue <= st.maxValue
    ensures forall x :: x in items ==> st.minValue <= x.value <= st.maxValue
    ensures items != [] ==> st.minValue == MinBy(items, GlucoseValue) && st.maxValue == MaxBy(items, GlucoseValue)
  {
    if |items| == 0 then GlucoseStats(0, 0.0, 0.0, 0.0)
    else GlucoseStats(|items|, Average(items, GlucoseValue), MinBy(items, GlucoseValue), MaxBy(items, GlucoseValue))
  }

  /** The mean of a non-empty day lies between its minimum and its maximum. */
  lemma GlucoseStatsMean(items: seq<HS.BloodGlucose>)
    requires items != []
    ensures GlucoseStatsOf(items).averageValue == Average(items, GlucoseValue)
    ensures GlucoseStatsOf(items).minValue <= GlucoseStatsOf(items).averageValue <= GlucoseStatsOf(items).maxValue
  {
    AverageBetweenMinMax(items, GlucoseValue);
  }

  /** The first page of 20 that `getTodayStatistics` reads never holds more than 20 of the day's entries. */
  lemma FirstPageCapped<R(!new)>(rows: seq<R>, owner: R -> string, stamp: R -> string,
                                 userId: string, today: string, tomorrow: string)
    ensures var total := HS.RangeCount(rows, owner, stamp, userId, today, tomorrow);
            var items := HS.RangePage(rows, owner, stamp, userId, today, tomorrow, 1, 20);
            |items| == (if total <= 20 then total else 20)
  {
    HS.SortedMatches(rows, owner, stamp, userId, today, tomorrow);
  }

  /** Asking for one page as large as the total returns every matching row. */
  lemma WholeRangeInOnePage<R(!new)>(rows: seq<R>, owner: R -> string, stamp: R -> string,
                                     userId: string, start: string, end: string, pageSize: int)
    requires pageSize >= HS.RangeCount(rows, owner, stamp, userId, start, end)
    ensures HS.RangePage(rows, owner, stamp, userId, start, end, 1, pageSize) == HS.RangeSorted(rows, owner, stamp, userId, start, end)
  {
    HS.SortedMatches(rows, owner, stamp, userId, start, end);
  }

  // ---------------------------------------------------------------- repositories

  /** `UserRepository.createUser`: a fresh id and timestamp always replace the caller's. */
  method CreateUser(store: HS.HealthRecordStore, data: UserDraft, id: string, now: string)
    returns (r: Result<ClientUser, Failure>)
    requires store.Valid()
    modifies store
    ensures store.Valid()
    ensures DecodeUser(NewUserPayload(data, id, now)).None? ==> r == Err(InvokeRejected) && unchanged(store)
    ensures r.Ok? <==> HS.UsersTable in old(store.tables) && DecodeUser(NewUserPayload(data, id, now)).Some?
                       && !HasKey(old(store.users), HS.UserId, DecodeUser(NewUserPayload(data, id, now)).value.id)
                       && !HasKey(old(store.users), HS.UserEmail, DecodeUser(NewUserPayload(data, id, now)).value.email)
    ensures r.Ok? ==> DecodeUser(NewUserPayload(data, id, now)).Some?
                      && r.value == FromTauriUser(DecodeUser(NewUserPayload(data, id, now)).value)
                      && r.value.id == id && r.value.createdAt == now
                      && store.users == old(store.users) + [DecodeUser(NewUserPayload(data, id, now)).value]
    ensures r.Err? ==> store.users == old(store.users)
  {
    var payload := DecodeUser(NewUserPayload(data, id, now));
    if payload.None? {
      return Err(InvokeRejected);
    }
    var response := store.UserCreate(payload.value);
    if response.Err? {
      return Err(InvokeRejected);
    }
    var user := Unwrap(response.value, "Failed to create user");
    r := Ok(FromTauriUser(user.value));
  }

  /** `UserRepository.getUserByEmail`: `null` when no user has that email. */
  method GetUserByEmail(store: HS.HealthRecordStore, email: string) returns (r: Option<ClientUser>)
    requires store.Valid()
    ensures r.Some? ==> exists u :: u in store.users && u.email == email && r.value == FromTauriUser(u)
    ensures r.None? <==> !HasKey(store.users, HS.UserEmail, email)
  {
    var response := store.UserGetByEmail(email);
    var data := response.value.data.value;
    r := if data.Some? then Some(FromTauriUser(data.value)) else None;
  }

  /** `UserRepository.getUserById` */
  method GetUserById(store: HS.HealthRecordStore, id: string) returns (r: Option<ClientUser>)
    requires store.Valid()
    ensures r.Some? ==> exists u :: u in store.users && u.id == id && r.value == FromTauriUser(u)
    ensures r.None? <==> !HasKey(store.users, HS.UserId, id)
  {
    var response := store.UserGetById(id);
    var data := response.value.data.value;
    r := if data.Some? then Some(FromTauriUser(data.value)) else None;
  }

  /** `UserRepository.updateUser` as written: it sends the camelCase record, which the command cannot read. */
  method UpdateUserAsWritten(store: HS.HealthRecordStore, user: ClientUser) returns (r: Result<ClientUser, Failure>)
    requires store.Valid()
    modifies store
    ensures r == Err(InvokeRejected)
    ensures unchanged(store)
  {
    var payload := DecodeUser(ClientUserAsSent(user));
    UpdateUserAlwaysRejected(user);
    assert payload.None?;
    r := Err(InvokeRejected);
  }

  /** `UserRepository.updateUser` as evidently intended: the record converted before it is sent. */
  method UpdateUser(store: HS.HealthRecordStore, user: ClientUser) returns (r: Result<ClientUser, Failure>)
    requires store.Valid()
    modifies store
    ensures store.Valid()
    ensures r.Ok? <==> HS.UsersTable in old(store.tables) && !HS.EmailClash(old(store.users), DecodeUser(UpdatePayload(user)).value)
    ensures r.Ok? ==> r.value == user && store.users == Map(old(store.users), HS.UpdateProfile(DecodeUser(UpdatePayload(user)).value))
    ensures r.Err? ==> store.users == old(store.users)
  {
    var payload := DecodeUser(UpdatePayload(user));
    var response := store.UserUpdate(payload.value);
    if response.Err? {
      return Err(InvokeRejected);
    }
    var updated := Unwrap(response.value, "Failed to update user");
    r := Ok(FromTauriUser(updated.value));
  }

  /** `FoodEntryRepository.create`: the entry is stored under a fresh id and timestamp. */
  method FoodCreate(store: HS.HealthRecordStore, data: FoodDraft, id: string, now: string)
    returns (r: Result<HS.FoodEntry, Failure>)
    requires store.Valid()
    modifies store
    ensures store.Valid()
    ensures DecodeFood(ToTauriFood(data).(id := Some(id), createdAt := Some(now))).None? ==> r == Err(InvokeRejected) && unchanged(store)
    ensures r.Ok? <==> HS.FoodEntriesTable in old(store.tables) && DecodeFood(ToTauriFood(data).(id := Some(id), createdAt := Some(now))).Some?
                       && !HasKey(old(store.foods), HS.FoodId, id)
    ensures r.Ok? ==> r.value.id == id && r.value.createdAt == now
                      && DecodeFood(ToTauriFood(data).(id := Some(id), createdAt := Some(now))) == Some(r.value)
                      && store.foods == old(store.foods) + [r.value]
    ensures r.Err? ==> store.foods == old(store.foods)
  {
    var payload := DecodeFood(ToTauriFood(data).(id := Some(id), createdAt := Some(now)));
    if payload.None? {
      return Err(InvokeRejected);
    }
    var response := store.FoodEntryCreate(payload.value);
    if response.Err? {
      return Err(InvokeRejected);
    }
    r := Unwrap(response.value, "Failed to create food entry");
  }

  /** `FoodEntryRepository.getEntries`: the page and the total of the command. */
  method FoodGetEntries(store: HS.HealthRecordStore, userId: string, startDate: string, endDate: string, page: int, pageSize: int)
    returns (r: Result<(seq<HS.FoodEntry>, int), Failure>)
    requires store.Valid()
    ensures HS.FoodEntriesTable !in store.tables ==> r == Err(InvokeRejected)
    ensures HS.FoodEntriesTable in store.tables ==>
              r == Ok((HS.RangePage(store.foods, HS.FoodOwner, HS.FoodStamp, userId, startDate, endDate, page, pageSize),
                       HS.RangeCount(store.foods, HS.FoodOwner, HS.FoodStamp, userId, startDate, endDate)))
  {
    var response := store.FoodEntryGetByUser(userId, startDate, endDate, page, pageSize);
    if response.Err? {
      return Err(InvokeRejected);
    }
    var paged := Unwrap(response.value, "Failed to get food entries");
    r := Ok((paged.value.items, paged.value.total));
  }

  /** `FoodEntryRepository.delete`: true once the command answered. */
  method FoodDelete(store: HS.HealthRecordStore, id: string) returns (r: Result<bool, Failure>)
    requires store.Valid()
    modifies store
    ensures store.Valid()
    ensures r.Ok? <==> HS.FoodEntriesTable in old(store.tables)
    ensures r.Ok? ==> r.value && store.foods == Filter(old(store.foods), KeyIsNot(HS.FoodId, id))
    ensures r.Err? ==> store.foods == old(store.foods)
  {
    var response := store.FoodEntryDelete(id);
    if response.Err? {
      return Err(InvokeRejected);
    }
    r := Ok(response.value.success);
  }

  /**
   * `FoodEntryRepository.getTodayStatistics` as written: it reads the default
   * first page of 20 entries, so the sums cover at most 20 of the day's entries.
   */
  method FoodTodayStatisticsAsWritten(store: HS.HealthRecordStore, userId: string, today: string, tomorrow: string)
    returns (r: Result<FoodStats, Failure>)
    requires store.Valid()
    ensures r.Ok? <==> HS.FoodEntriesTable in store.tables
    ensures r.Ok? ==> var items := HS.RangePage(store.foods, HS.FoodOwner, HS.FoodStamp, userId, today, tomorrow, 1, 20);
                      r.value.totalEntries == |items| <= 20 && r.value.totalCalories == SumReal(items, Calories)
                      && r.value.totalFat == SumReal(items, Fat)
                      && r.value.totalCarbohydrates == SumReal(items, Carbohydrates) && r.value.totalProtein == SumReal(items, Protein)
    ensures r.Ok? && HS.RangeCount(store.foods, HS.FoodOwner, HS.FoodStamp, userId, today, tomorrow) > 20 ==>
              r.value.totalEntries == 20 < HS.RangeCount(store.foods, HS.FoodOwner, HS.FoodStamp, userId, today, tomorrow)
  {
    var result := FoodGetEntries(store, userId, today, tomorrow, 1, 20);
    if result.Err? {
      return Err(result.error);
    }
    FirstPageCapped(store.foods, HS.FoodOwner, HS.FoodStamp, userId, today, tomorrow);
    var stats := SumFoodStats(result.value.0);
    r := Ok(stats);
  }

  /**
   * `getTodayStatistics` as evidently intended: when the first page does not
   * hold the whole day, the day is fetched again in one page of `total` rows,
   * so the statistics cover every entry in `[today, tomorrow)`.
   */
  method FoodTodayStatistics(store: HS.HealthRecordStore, userId: string, today: string, tomorrow: string)
    returns (r: Result<FoodStats, Failure>)
    requires store.Valid()
    ensures r.Ok? <==> HS.FoodEntriesTable in store.tables
    ensures r.Ok? ==> var all := HS.RangeSorted(store.foods, HS.FoodOwner, HS.FoodStamp, userId, today, tomorrow);
                      r.value.totalEntries == |all| == HS.RangeCount(store.foods, HS.FoodOwner, HS.FoodStamp, userId, today, tomorrow)
                      && r.value.totalCalories == SumReal(all, Calories) && r.value.totalFat == SumReal(all, Fat)
                      && r.value.totalCarbohydrates == SumReal(all, Carbohydrates) && r.value.totalProtein == SumReal(all, Protein)
  {
    var result := FoodGetEntries(store, userId, today, tomorrow, 1, 20);
    if result.Err? {
      return Err(result.error);
    }
    var (items, total) := result.value;
    HS.SortedMatches(store.foods, HS.FoodOwner, HS.FoodStamp, userId, today, tomorrow);
    FirstPageCapped(store.foods, HS.FoodOwner, HS.FoodStamp, userId, today, tomorrow);
    var pageSize := if |items| < total then total else 20;
    if |items| < total {
      result := FoodGetEntries(store, userId, today, tomorrow, 1, total);
      items := result.value.0;
    }
    WholeRangeInOnePage(store.foods, HS.FoodOwner, HS.FoodStamp, userId, today, tomorrow, pageSize);
    var stats := SumFoodStats(items);
    r := Ok(stats);
  }

  /** `BloodGlucoseRepository.create` */
  method GlucoseCreate(store: HS.HealthRecordStore, data: GlucoseDraft, id: string, now: string)
    returns (r: Result<HS.BloodGlucose, Failure>)
    requires store.Valid()
    modifies store
    ensures store.Valid()
    ensures DecodeGlucose(ToTauriGlucose(data).(id := Some(id), createdAt := Some(now))).None? ==> r == Err(InvokeRejected) && unchanged(store)
    ensures r.Ok? <==> HS.BloodGlucoseTable in old(store.tables) && DecodeGlucose(ToTauriGlucose(data).(id := Some(id), createdAt := Some(now))).Some?
                       && !HasKey(old(store.glucose), HS.GlucoseId, id)
    ensures r.Ok? ==> r.value.id == id && r.value.createdAt == now
                      && DecodeGlucose(ToTauriGlucose(data).(id := Some(id), createdAt := Some(now))) == Some(r.value)
                      && store.glucose == old(store.glucose) + [r.value]
    ensures r.Err? ==> store.glucose == old(store.glucose)
  {
    var payload := DecodeGlucose(ToTauriGlucose(data).(id := Some(id), createdAt := Some(now)));
    if payload.None? {
      return Err(InvokeRejected);
    }
    var response := store.BloodGlucoseCreate(payload.value);
    if response.Err? {
      return Err(InvokeRejected);
    }
    r := Unwrap(response.value, "Failed to create blood glucose entry");
  }

  /** `BloodGlucoseRepository.getEntries` */
  method GlucoseGetEntries(store: HS.HealthRecordStore, userId: string, startDate: string, endDate: string, page: int, pageSize: int)
    returns (r: Result<(seq<HS.BloodGlucose>, int), Failure>)
    requires store.Valid()
    ensures HS.BloodGlucoseTable !in store.tables ==> r == Err(InvokeRejected)
    ensures HS.BloodGlucoseTable in store.tables ==>
              r == Ok((HS.RangePage(store.glucose, HS.GlucoseOwner, HS.GlucoseStamp, userId, startDate, endDate, page, pageSize),
                       HS.RangeCount(store.glucose, HS.GlucoseOwner, HS.GlucoseStamp, userId, startDate, endDate)))
  {
    var response := store.BloodGlucoseGetByUser(userId, startDate, endDate, page, pageSize);
    if response.Err? {
      return Err(InvokeRejected);
    }
    var paged := Unwrap(response.value, "Failed to get blood glucose entries");
    r := Ok((paged.value.items, paged.value.total));
  }

  /** `BloodGlucoseRepository.delete` */
  method GlucoseDelete(store: HS.HealthRecordStore, id: string) returns (r: Result<bool, Failure>)
    requires store.Valid()
    modifies store
    ensures store.Valid()
    ensures r.Ok? <==> HS.BloodGlucoseTable in old(store.tables)
    ensures r.Ok? ==> r.value && store.glucose == Filter(old(store.glucose), KeyIsNot(HS.GlucoseId, id))
    ensures r.Err? ==> store.glucose == old(store.glucose)
  {
    var response := store.BloodGlucoseDelete(id);
    if response.Err? {
      return Err(InvokeRejected);
    }
    r := Ok(response.value.success);
  }

  /** `BloodGlucoseRepository.getTodayStatistics` as written: statistics of the first page of 20 only. */
  method GlucoseTodayStatisticsAsWritten(store: HS.HealthRecordStore, userId: string, today: string, tomorrow: string)
    returns (r: Result<GlucoseStats, Failure>)
    requires store.Valid()
    ensures r.Ok? <==> HS.BloodGlucoseTable in store.tables
    ensures r.Ok? ==> r.value == GlucoseStatsOf(HS.RangePage(store.glucose, HS.GlucoseOwner, HS.GlucoseStamp, userId, today, tomorrow, 1, 20))
    ensures r.Ok? && HS.RangeCount(store.glucose, HS.GlucoseOwner, HS.GlucoseStamp, userId, today, tomorrow) > 20 ==>
              r.value.totalEntries == 20 < HS.RangeCount(store.glucose, HS.GlucoseOwner, HS.GlucoseStamp, userId, today, tomorrow)
  {
    var result := GlucoseGetEntries(store, userId, today, tomorrow, 1, 20);
    if result.Err? {
      return Err(result.error);
    }
    FirstPageCapped(store.glucose, HS.GlucoseOwner, HS.GlucoseStamp, userId, today, tomorrow);
    r := Ok(GlucoseStatsOf(result.value.0));
  }

  /** `BloodGlucoseRepository.getTodayStatistics` as evidently intended: over every reading of the day. */
  method GlucoseTodayStatistics(store: HS.HealthRecordStore, userId: string, today: string, tomorrow: string)
    returns (r: Result<GlucoseStats, Failure>)
    requires store.Valid()
    ensures r.Ok? <==> HS.BloodGlucoseTable in store.tables
    ensures r.Ok? ==> r.value == GlucoseStatsOf(HS.RangeSorted(store.glucose, HS.GlucoseOwner, HS.GlucoseStamp, userId, today, tomorrow))
    ensures r.Ok? ==> r.value.totalEntries == HS.RangeCount(store.glucose, HS.GlucoseOwner, HS.GlucoseStamp, userId, today, tomorrow)
  {
    var result := GlucoseGetEntries(store, userId, today, tomorrow, 1, 20);
    if result.Err? {
      return Err(result.error);
    }
    var (items, total) := result.value;
    HS.SortedMatches(store.glucose, HS.GlucoseOwner, HS.GlucoseStamp, userId, today, tomorrow);
    FirstPageCapped(store.glucose, HS.GlucoseOwner, HS.GlucoseStamp, userId, today, tomorrow);
    var pageSize := if |items| < total then total else 20;
    if |items| < total {
      result := GlucoseGetEntries(store, userId, today, tomorrow, 1, total);
      items := result.value.0;
    }
    WholeRangeInOnePage(store.glucose, HS.GlucoseOwner, HS.GlucoseStamp, userId, today, tomorrow, pageSize);
    r := Ok(GlucoseStatsOf(items));
  }

  /** `MedicationRepository.create` */
  method MedicationCreate(store: HS.HealthRecordStore, data: MedicationDraft, id: string, now: string)
    returns (r: Result<HS.Medication, Failure>)
    requires store.Valid()
    modifies store
    ensures store.Valid()
    ensures DecodeMedication(ToTauriMedication(data).(id := Some(id), createdAt := Some(now))).None? ==> r == Err(InvokeRejected) && unchanged(store)
    ensures r.Ok? <==> HS.MedicationsTable in old(store.tables) && DecodeMedication(ToTauriMedication(data).(id := Some(id), createdAt := Some(now))).Some?
                       && !HasKey(old(store.medications), HS.MedicationId, id)
    ensures r.Ok? ==> r.value.id == id && r.value.createdAt == now
                      && DecodeMedication(ToTauriMedication(data).(id := Some(id), createdAt := Some(now))) == Some(r.value)
                      && store.medications == old(store.medications) + [HS.EncodeMedication(r.value)]
    ensures r.Err? ==> store.medications == old(store.medications)
  {
    var payload := DecodeMedication(ToTauriMedication(data).(id := Some(id), createdAt := Some(now)));
    if payload.None? {
      return Err(InvokeRejected);
    }
    var response := store.MedicationCreate(payload.value);
    if response.Err? {
      return Err(InvokeRejected);
    }
    r := Unwrap(response.value, "Failed to create medication entry");
  }

  /** `MedicationRepository.getEntries` */
  method MedicationGetEntries(store: HS.HealthRecordStore, userId: string, startDate: string, endDate: string, page: int, pageSize: int)
    returns (r: Result<(seq<HS.Medication>, int), Failure>)
    requires store.Valid()
    ensures HS.MedicationsTable !in store.tables ==> r == Err(InvokeRejected)
    ensures HS.MedicationsTable in store.tables ==>
              r == Ok((Map(HS.RangePage(store.medications, HS.MedicationOwner, HS.MedicationStamp, userId, startDate, endDate, page, pageSize), HS.DecodeMedication),
                       HS.RangeCount(store.medications, HS.MedicationOwner, HS.MedicationStamp, userId, startDate, endDate)))
  {
    var response := store.MedicationGetByUser(userId, startDate, endDate, page, pageSize);
    if response.Err? {
      return Err(InvokeRejected);
    }
    var paged := Unwrap(response.value, "Failed to get medication entries");
    r := Ok((paged.value.items, paged.value.total));
  }

  /** `MedicationRepository.markTaken` */
  method MedicationMarkTaken(store: HS.HealthRecordStore, id: string, actualTime: string) returns (r: Result<bool, Failure>)
    requires store.Valid()
    modifies store
    ensures store.Valid()
    ensures r.Ok? <==> HS.MedicationsTable in old(store.tables)
    ensures r.Ok? ==> r.value
    ensures |store.medications| == |old(store.medications)|
    ensures forall i :: 0 <= i < |store.medications| ==>
              store.medications[i] == if r.Ok? && old(store.medications)[i].id == id
                                      then HS.MarkRowTaken(old(store.medications)[i], actualTime)
                                      else old(store.medications)[i]
  {
    var response := store.MedicationMarkTaken(id, actualTime);
    if response.Err? {
      return Err(InvokeRejected);
    }
    r := Ok(response.value.success);
  }

  /** `MedicationRepository.delete` */
  method MedicationDelete(store: HS.HealthRecordStore, id: string) returns (r: Result<bool, Failure>)
    requires store.Valid()
    modifies store
    ensures store.Valid()
    ensures r.Ok? <==> HS.MedicationsTable in old(store.tables)
    ensures r.Ok? ==> r.value && store.medications == Filter(old(store.medications), KeyIsNot(HS.MedicationId, id))
    ensures r.Err? ==> store.medications == old(store.medications)
  {
    var response := store.MedicationDelete(id);
    if response.Err? {
      return Err(InvokeRejected);
    }
    r := Ok(response.value.success);
  }

  /** `ChatMessageRepository.create`: stores one message under a fresh id and timestamp. */
  method ChatCreate(store: HS.HealthRecordStore, role: string, content: string, userId: string, model: Option<string>,
                    id: string, now: string) returns (r: Result<(), Failure>)
    requires store.Valid()
    modifies store
    ensures store.Valid()
    ensures r.Ok? <==> HS.ChatMessagesTable in old(store.tables) && !HasKey(old(store.chats), HS.ChatId, id)
    ensures r.Ok? ==> store.chats == old(store.chats) + [HS.ChatMessage(id, userId, now, role, content, model)]
    ensures r.Err? ==> store.chats == old(store.chats)
  {
    var response := store.ChatMessageCreate(HS.ChatMessage(id, userId, now, role, content, model));
    if response.Err? {
      return Err(InvokeRejected);
    }
    r := Ok(());
  }

  /** `ChatMessageRepository.getHistory`: the newest `take` messages, returned oldest first. */
  method GetHistory(store: HS.HealthRecordStore, userId: string, take: int) returns (r: Result<seq<HS.ChatMessage>, Failure>)
    requires store.Valid()
    ensures HS.ChatMessagesTable !in store.tables ==> r == Err(InvokeRejected)
    ensures HS.ChatMessagesTable in store.tables ==> r == Ok(Reverse(HS.History(store.chats, userId, take)))
  {
    var response := store.ChatMessageGetHistory(userId, take);
    if response.Err? {
      return Err(InvokeRejected);
    }
    var messages := Unwrap(response.value, "Failed to get chat history");
    r := Ok(Reverse(messages.value));
  }

  /** The history a client sees holds only that user's messages, at most `take`, oldest first. */
  lemma HistoryOldestFirst(chats: seq<HS.ChatMessage>, userId: string, take: int)
    ensures var r := Reverse(HS.History(chats, userId, take));
            && (forall c :: c in r ==> c in chats && c.userId == userId)
            && (take >= 0 ==> |r| <= take)
            && (forall i, j :: 0 <= i < j < |r| ==> StrLe(r[i].createdAt, r[j].createdAt))
  {
    var h := HS.History(chats, userId, take);
    HS.HistorySound(chats, userId, take);
    var r := Reverse(h);
    var lt := NewestFirst(HS.ChatStamp);
    assert SortedBy(h, lt);
    forall c | c in r ensures c in chats && c.userId == userId {
      var i :| 0 <= i < |r| && r[i] == c;
      assert h[|h| - 1 - i] == c;
    }
    forall i, j | 0 <= i < j < |r| ensures StrLe(r[i].createdAt, r[j].createdAt) {
      var a, b := |h| - 1 - j, |h| - 1 - i;
      assert r[i] == h[b] && r[j] == h[a];
      assert !lt(h[b], h[a]);
      assert lt(h[b], h[a]) == StrLt(HS.ChatStamp(h[a]), HS.ChatStamp(h[b]));
      NotLtIsLe(h[b].createdAt, h[a].createdAt);
    }
  }
}
