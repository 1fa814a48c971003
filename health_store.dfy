/**
 * The desktop app's embedded store (the Tauri commands of database.rs): five
 * SQLite tables, typed inserts, point lookups, a full-profile user update,
 * deletes by id, the "mark taken" transition, paged range queries with a
 * separate COUNT(*), and the chat history.
 *
 * The database file is a `HealthRecordStore` object holding one sequence of
 * rows per table, in insertion order, plus the set of tables that exist.
 * Every command's `Err` is the rusqlite error that the command forwards with
 * `?`; its text is abstracted to a `SqlError` value.
 */
module HealthStore {
  import opened Wrappers
  import opened Seqs
  import opened Timestamps

  // ---------------------------------------------------------------- records

  datatype User = User(
    id: string, username: string, email: string, phone: Option<string>,
    passwordHash: string, createdAt: string, birthday: Option<string>,
    gender: int, height: real, diabetesType: int, diagnosisDate: Option<string>,
    treatmentPlan: int, targetWeight: Option<real>, targetHbA1c: Option<real>,
    targetCalories: Option<real>, targetCarbohydrates: Option<real>)

  datatype FoodEntry = FoodEntry(
    id: string, userId: string, createdAt: string, mealType: int, mealTime: string,
    foodName: string, quantity: real, calories: real, carbohydrates: real,
    protein: real, fat: real, gi: Option<real>, gl: Option<real>, source: int,
    imagePath: Option<string>, notes: Option<string>)

  datatype BloodGlucose = BloodGlucose(
    id: string, userId: string, createdAt: string, value: real, measurementTime: int,
    measurementTimeExact: Option<string>, beforeMealGlucose: Option<real>,
    afterMealGlucose: Option<real>, relatedMeal: Option<int>, notes: Option<string>,
    deviceName: Option<string>, deviceSerial: Option<string>)

  /** A medication as the commands exchange it: `isTaken` is a boolean. */
  datatype Medication = Medication(
    id: string, userId: string, createdAt: string, drugName: string, kind: int,
    dose: real, unit: string, timing: int, insulinType: Option<int>,
    insulinDuration: Option<int>, scheduledTime: string, actualTime: Option<string>,
    isTaken: bool, notes: Option<string>)

  /** A row of the Medications table: `is_taken` is an INTEGER column. */
  datatype MedicationRow = MedicationRow(
    id: string, userId: string, createdAt: string, drugName: string, kind: int,
    dose: real, unit: string, timing: int, insulinType: Option<int>,
    insulinDuration: Option<int>, scheduledTime: string, actualTime: Option<string>,
    isTaken: int, notes: Option<string>)

  datatype ChatMessage = ChatMessage(
    id: string, userId: string, createdAt: string, role: string, content: string,
    model: Option<string>)

  datatype PagedResult<T> = PagedResult(items: seq<T>, total: int, page: int, pageSize: int)

  /** The envelope every command returns on success. */
  datatype ApiResponse<T> = ApiResponse(success: bool, data: Option<T>, message: Option<string>)

  datatype Table = UsersTable | FoodEntriesTable | BloodGlucoseTable | MedicationsTable | ChatMessagesTable

  datatype SqlError =
    | NoSuchTable(table: Table)
    | UniqueViolation(table: Table, column: string)

  /** The successful envelope around `data`. */
  function Respond<T>(data: T): ApiResponse<T>
  {
    ApiResponse(true, Some(data), None)
  }

  // ---------------------------------------------------------------- column accessors

  function UserId(u: User): string { u.id }
  function UserEmail(u: User): string { u.email }
  function FoodId(f: FoodEntry): string { f.id }
  function FoodOwner(f: FoodEntry): string { f.userId }
  function FoodStamp(f: FoodEntry): string { f.createdAt }
  function GlucoseId(g: BloodGlucose): string { g.id }
  function GlucoseOwner(g: BloodGlucose): string { g.userId }
  function GlucoseStamp(g: BloodGlucose): string { g.createdAt }
  function MedicationId(m: MedicationRow): string { m.id }
  function MedicationOwner(m: MedicationRow): string { m.userId }
  function MedicationStamp(m: MedicationRow): string { m.createdAt }
  function ChatId(c: ChatMessage): string { c.id }
  function ChatOwner(c: ChatMessage): string { c.userId }
  function ChatStamp(c: ChatMessage): string { c.createdAt }

  // ---------------------------------------------------------------- is_taken column

  /** The INSERT binds `is_taken` as 1 or 0. */
  function EncodeMedication(m: Medication): (row: MedicationRow)
    ensures row.isTaken == 1 || row.isTaken == 0
  {
    MedicationRow(m.id, m.userId, m.createdAt, m.drugName, m.kind, m.dose, m.unit, m.timing,
                  m.insulinType, m.insulinDuration, m.scheduledTime, m.actualTime,
                  if m.isTaken then 1 else 0, m.notes)
  }

  /** The SELECT reads `is_taken` back as `== 1`. */
  function DecodeMedication(row: MedicationRow): Medication
  {
    Medication(row.id, row.userId, row.createdAt, row.drugName, row.kind, row.dose, row.unit,
               row.timing, row.insulinType, row.insulinDuration, row.scheduledTime,
               row.actualTime, row.isTaken == 1, row.notes)
  }

  /** A stored medication reads back exactly as it was created, `is_taken` included. */
  lemma MedicationRoundTrip(m: Medication)
    ensures DecodeMedication(EncodeMedication(m)) == m
    ensures EncodeMedication(m).isTaken == 1 <==> m.isTaken
  {
  }

  /** `SET is_taken = 1, actual_time = ?2`: only those two columns change. */
  function MarkRowTaken(row: MedicationRow, actualTime: string): (r: MedicationRow)
    ensures DecodeMedication(r).isTaken
    ensures DecodeMedication(r).actualTime == Some(actualTime)
    ensures r.(isTaken := row.isTaken, actualTime := row.actualTime) == row
  {
    row.(isTaken := 1, actualTime := Some(actualTime))
  }

  // ---------------------------------------------------------------- point lookups

  // ---------------------------------------------------------------- user update

  /** The columns `user_update` assigns: everything but id, password_hash and created_at. */
  function ApplyProfile(stored: User, given: User): (r: User)
    ensures r.id == stored.id && r.passwordHash == stored.passwordHash && r.createdAt == stored.createdAt
    ensures r.(id := given.id, passwordHash := given.passwordHash, createdAt := given.createdAt) == given
  {
    stored.(username := given.username, email := given.email, phone := given.phone,
            birthday := given.birthday, gender := given.gender, height := given.height,
            diabetesType := given.diabetesType, diagnosisDate := given.diagnosisDate,
            treatmentPlan := given.treatmentPlan, targetWeight := given.targetWeight,
            targetHbA1c := given.targetHbA1c, targetCalories := given.targetCalories,
            targetCarbohydrates := given.targetCarbohydrates)
  }

  /** The row-by-row effect of `UPDATE Users SET ... WHERE id = ?1`. */
  function UpdateProfile(given: User): User -> User
  {
    (u: User) => if u.id == given.id then ApplyProfile(u, given) else u
  }

  /** The update would give a second row the email of another: the UNIQUE constraint fails. */
  predicate EmailClash(users: seq<User>, given: User)
  {
    HasKey(users, UserId, given.id) &&
    exists i :: 0 <= i < |users| && users[i].id != given.id && users[i].email == given.email
  }

  /**
   * The update rewrites the profile of the row with that id, keeps its id,
   * password hash and creation time, and leaves every other row alone; with an
   * unknown id nothing changes.
   */
  lemma UserUpdateEffect(users: seq<User>, given: User)
    ensures var r := Map(users, UpdateProfile(given));
            && |r| == |users|
            && (forall i :: 0 <= i < |users| && users[i].id != given.id ==> r[i] == users[i])
            && (forall i :: 0 <= i < |users| && users[i].id == given.id ==>
                  r[i].(id := given.id, passwordHash := given.passwordHash, createdAt := given.createdAt) == given
                  && r[i].passwordHash == users[i].passwordHash && r[i].createdAt == users[i].createdAt)
            && (!HasKey(users, UserId, given.id) ==> r == users)
  {
    var r := Map(users, UpdateProfile(given));
    if !HasKey(users, UserId, given.id) {
      assert forall i :: 0 <= i < |users| ==> r[i] == users[i];
    }
  }

  /** Without a clash, the updated table still has unique emails (and unique ids). */
  lemma UserUpdateKeepsKeys(users: seq<User>, given: User)
    requires UniqueKeys(users, UserId) && UniqueKeys(users, UserEmail)
    requires !EmailClash(users, given)
    ensures UniqueKeys(Map(users, UpdateProfile(given)), UserId)
    ensures UniqueKeys(Map(users, UpdateProfile(given)), UserEmail)
  {
    var f := UpdateProfile(given);
    MapKeepsUnique(users, UserId, f);
    var r := Map(users, f);
    forall i, j | 0 <= i < j < |r| ensures r[i].email != r[j].email {
      if users[i].id == given.id {
        assert users[j].id != given.id;
      } else if users[j].id == given.id {
        assert users[i].id != given.id;
      }
    }
  }

  // ---------------------------------------------------------------- range queries

  /** `WHERE user_id = ?1 AND created_at >= ?2 AND created_at < ?3` */
  function InWindow<R>(owner: R -> string, stamp: R -> string, userId: string, start: string, end: string): R -> bool
  {
    (r: R) => owner(r) == userId && StrLe(start, stamp(r)) && StrLt(stamp(r), end)
  }

  /** All matching rows, newest first. */
  function RangeSorted<R(!new)>(rows: seq<R>, owner: R -> string, stamp: R -> string,
                                userId: string, start: string, end: string): seq<R>
  {
    SortBy(Filter(rows, InWindow(owner, stamp, userId, start, end)), NewestFirst(stamp))
  }

  /** The page the paged getters return: `ORDER BY created_at DESC LIMIT page_size OFFSET (page-1)*page_size`. */
  function RangePage<R(!new)>(rows: seq<R>, owner: R -> string, stamp: R -> string,
                              userId: string, start: string, end: string, page: int, pageSize: int): seq<R>
  {
    SqlLimitOffset(RangeSorted(rows, owner, stamp, userId, start, end), pageSize, (page - 1) * pageSize)
  }

  /** `SELECT COUNT(*)` with the same WHERE clause. */
  function RangeCount<R(!new)>(rows: seq<R>, owner: R -> string, stamp: R -> string,
                               userId: string, start: string, end: string): nat
  {
    Count(rows, InWindow(owner, stamp, userId, start, end))
  }

  /** Every row of a page is one of the table's rows that satisfies the WHERE clause. */
  lemma SortedMatches<R(!new)>(rows: seq<R>, owner: R -> string, stamp: R -> string,
                               userId: string, start: string, end: string)
    ensures var s := RangeSorted(rows, owner, stamp, userId, start, end);
            && |s| == RangeCount(rows, owner, stamp, userId, start, end)
            && SortedBy(s, NewestFirst(stamp))
            && forall x :: x in s <==> x in rows && owner(x) == userId && StrLe(start, stamp(x)) && StrLt(stamp(x), end)
  {
    var m := Filter(rows, InWindow(owner, stamp, userId, start, end));
    var s := SortBy(m, NewestFirst(stamp));
    NewestFirstStrictWeak(stamp, m);
    SortBySorted(m, NewestFirst(stamp));
    forall x ensures x in s <==> x in m {
      assert x in s <==> x in multiset(s);
      assert x in m <==> x in multiset(m);
    }
  }

  /**
   * A page holds only the user's rows with `start <= created_at < end`, newest
   * first, at most `page_size` of them, and never more than the total.
   */
  lemma RangePageSound<R(!new)>(rows: seq<R>, owner: R -> string, stamp: R -> string,
                                userId: string, start: string, end: string, page: int, pageSize: int)
    ensures var p := RangePage(rows, owner, stamp, userId, start, end, page, pageSize);
            && (forall x :: x in p ==> x in rows && owner(x) == userId && StrLe(start, stamp(x)) && StrLt(stamp(x), end))
            && SortedBy(p, NewestFirst(stamp))
            && (pageSize >= 0 ==> |p| <= pageSize)
            && |p| <= RangeCount(rows, owner, stamp, userId, start, end)
  {
    var s := RangeSorted(rows, owner, stamp, userId, start, end);
    SortedMatches(rows, owner, stamp, userId, start, end);
    WindowSorted(s, (page - 1) * pageSize, pageSize, NewestFirst(stamp));
    WindowMembers(s, (page - 1) * pageSize, pageSize);
  }

  /** The window is half-open: a row stamped `start` is counted, a row stamped `end` never is. */
  lemma RangeBoundaries<R(!new)>(rows: seq<R>, owner: R -> string, stamp: R -> string,
                                 userId: string, start: string, end: string, x: R)
    requires x in rows && owner(x) == userId
    ensures stamp(x) == start && StrLt(start, end) ==> x in RangeSorted(rows, owner, stamp, userId, start, end)
    ensures stamp(x) == end ==> x !in RangeSorted(rows, owner, stamp, userId, start, end)
  {
    SortedMatches(rows, owner, stamp, userId, start, end);
    StrLtIrreflexive(end);
  }

  /**
   * Paging covers the result: with `page_size >= 1`, the k-th newest matching row
   * (k below the total) is item `k % page_size` of page `k / page_size + 1`.
   */
  lemma RangePagesCover<R(!new)>(rows: seq<R>, owner: R -> string, stamp: R -> string,
                                 userId: string, start: string, end: string, pageSize: int, k: int)
    requires pageSize >= 1 && 0 <= k < RangeCount(rows, owner, stamp, userId, start, end)
    ensures var p := RangePage(rows, owner, stamp, userId, start, end, k / pageSize + 1, pageSize);
            k % pageSize < |p| && p[k % pageSize] == RangeSorted(rows, owner, stamp, userId, start, end)[k]
  {
    var s := RangeSorted(rows, owner, stamp, userId, start, end);
    SortedMatches(rows, owner, stamp, userId, start, end);
    PageOfRow(s, pageSize, k);
  }

  /** `ORDER BY created_at DESC LIMIT take`: the chat history. */
  function History(chats: seq<ChatMessage>, userId: string, take: int): seq<ChatMessage>
  {
    SqlLimitOffset(SortBy(Filter(chats, (c: ChatMessage) => c.userId == userId), NewestFirst(ChatStamp)), take, 0)
  }

  /** The history holds only that user's messages, newest first, and at most `take` of them. */
  lemma HistorySound(chats: seq<ChatMessage>, userId: string, take: int)
    ensures var h := History(chats, userId, take);
            && (forall c :: c in h ==> c in chats && c.userId == userId)
            && SortedBy(h, NewestFirst(ChatStamp))
            && (take >= 0 ==> |h| <= take)
  {
    var m := Filter(chats, (c: ChatMessage) => c.userId == userId);
    var s := SortBy(m, NewestFirst(ChatStamp));
    NewestFirstStrictWeak(ChatStamp, m);
    SortBySorted(m, NewestFirst(ChatStamp));
    WindowSorted(s, 0, take, NewestFirst(ChatStamp));
    WindowMembers(s, 0, take);
    forall x | x in s ensures x in m {
      assert x in multiset(s);
    }
  }

  // ---------------------------------------------------------------- the store

  const AllTables: seq<Table> := [UsersTable, FoodEntriesTable, BloodGlucoseTable, MedicationsTable, ChatMessagesTable]

  class HealthRecordStore {
    var tables: set<Table>
    var users: seq<User>
    var foods: seq<FoodEntry>
    var glucose: seq<BloodGlucose>
    var medications: seq<MedicationRow>
    var chats: seq<ChatMessage>

    /** A table that does not exist holds no rows; PRIMARY KEY and UNIQUE columns are unique. */
    ghost predicate Valid()
      reads this
    {
      && (UsersTable !in tables ==> users == [])
      && (FoodEntriesTable !in tables ==> foods == [])
      && (BloodGlucoseTable !in tables ==> glucose == [])
      && (MedicationsTable !in tables ==> medications == [])
      && (ChatMessagesTable !in tables ==> chats == [])
      && UniqueKeys(users, UserId) && UniqueKeys(users, UserEmail)
      && UniqueKeys(foods, FoodId) && UniqueKeys(glucose, GlucoseId)
      && UniqueKeys(medications, MedicationId) && UniqueKeys(chats, ChatId)
    }

    /** A freshly opened, empty database file. */
    constructor ()
      ensures Valid()
      ensures tables == {} && users == [] && foods == [] && glucose == [] && medications == [] && chats == []
    {
      tables := {};
      users, foods, glucose, medications, chats := [], [], [], [], [];
    }

    /** `create_tables`: `CREATE TABLE IF NOT EXISTS` for each of the five tables, in order. */
    method CreateTables()
      requires Valid()
      modifies this
      ensures Valid()
      ensures forall t :: t in tables <==> t in old(tables) || t in AllTables
      ensures users == old(users) && foods == old(foods) && glucose == old(glucose)
      ensures medications == old(medications) && chats == old(chats)
    {
      var queries := AllTables;
      var i := 0;
      while i < |queries|
        invariant 0 <= i <= |queries|
        invariant Valid()
        invariant forall t :: t in tables <==> t in old(tables) || t in queries[..i]
        invariant users == old(users) && foods == old(foods) && glucose == old(glucose)
        invariant medications == old(medications) && chats == old(chats)
      {
        assert queries[..i + 1] == queries[..i] + [queries[i]];
        tables := tables + {queries[i]};
        i := i + 1;
      }
      assert queries[..i] == AllTables;
    }

    /**
     * `db_init`: creates the missing tables and keeps every existing row, so a
     * second run finds the same schema and data.
     */
    method DbInit() returns (r: ApiResponse<string>)
      requires Valid()
      modifies this
      ensures Valid()
      ensures r == Respond("Database initialized successfully")
      ensures forall t :: t in tables <==> t in old(tables) || t in AllTables
      ensures users == old(users) && foods == old(foods) && glucose == old(glucose)
      ensures medications == old(medications) && chats == old(chats)
    {
      CreateTables();
      r := Respond("Database initialized successfully");
    }

    /** `user_create`: inserts the user unless the table is missing or the id or email is taken. */
    method UserCreate(user: User) returns (r: Result<ApiResponse<User>, SqlError>)
      requires Valid()
      modifies this
      ensures Valid()
      ensures r.Ok? <==> UsersTable in old(tables) && !HasKey(old(users), UserId, user.id)
                         && !HasKey(old(users), UserEmail, user.email)
      ensures r.Ok? ==> r.value == Respond(user) && users == old(users) + [user]
      ensures r.Err? ==> users == old(users)
      ensures UsersTable !in old(tables) ==> r == Err(NoSuchTable(UsersTable))
      ensures tables == old(tables) && foods == old(foods) && glucose == old(glucose)
      ensures medications == old(medications) && chats == old(chats)
    {
      if UsersTable !in tables {
        return Err(NoSuchTable(UsersTable));
      }
      if HasKey(users, UserId, user.id) {
        return Err(UniqueViolation(UsersTable, "id"));
      }
      if HasKey(users, UserEmail, user.email) {
        return Err(UniqueViolation(UsersTable, "email"));
      }
      AppendUnique(users, UserId, user);
      AppendUnique(users, UserEmail, user);
      users := users + [user];
      r := Ok(Respond(user));
    }

    /**
     * `user_get_by_email`: every failure of the lookup, a missing table
     * included, is swallowed by `.ok()`, so the call always succeeds, with
     * `Some(None)` when no user has that email.
     */
    method UserGetByEmail(email: string) returns (r: Result<ApiResponse<Option<User>>, SqlError>)
      requires Valid()
      ensures r.Ok? && r.value.success && r.value.data.Some?
      ensures r.value.data.value.Some? ==> r.value.data.value.value in users && r.value.data.value.value.email == email
      ensures r.value.data.value.None? <==> !HasKey(users, UserEmail, email)
    {
      r := Ok(Respond(FirstWithKey(users, UserEmail, email)));
    }

    /** `user_get_by_id`: as the email lookup, keyed by id. */
    method UserGetById(id: string) returns (r: Result<ApiResponse<Option<User>>, SqlError>)
      requires Valid()
      ensures r.Ok? && r.value.success && r.value.data.Some?
      ensures r.value.data.value.Some? ==> r.value.data.value.value in users && r.value.data.value.value.id == id
      ensures r.value.data.value.None? <==> !HasKey(users, UserId, id)
    {
      r := Ok(Respond(FirstWithKey(users, UserId, id)));
    }

    /**
     * `user_update`: rewrites the profile columns of the row with that id and
     * echoes the input; an unknown id matches no row and still succeeds.
     */
    method UserUpdate(user: User) returns (r: Result<ApiResponse<User>, SqlError>)
      requires Valid()
      modifies this
      ensures Valid()
      ensures r.Ok? <==> UsersTable in old(tables) && !EmailClash(old(users), user)
      ensures r.Ok? ==> r.value == Respond(user) && users == Map(old(users), UpdateProfile(user))
      ensures r.Err? ==> users == old(users)
      ensures tables == old(tables) && foods == old(foods) && glucose == old(glucose)
      ensures medications == old(medications) && chats == old(chats)
    {
      if UsersTable !in tables {
        return Err(NoSuchTable(UsersTable));
      }
      if EmailClash(users, user) {
        return Err(UniqueViolation(UsersTable, "email"));
      }
      UserUpdateKeepsKeys(users, user);
      users := Map(users, UpdateProfile(user));
      r := Ok(Respond(user));
    }

    /** `food_entry_create`: inserts the entry unless the table is missing or the id is taken. */
    method FoodEntryCreate(entry: FoodEntry) returns (r: Result<ApiResponse<FoodEntry>, SqlError>)
      requires Valid()
      modifies this
      ensures Valid()
      ensures r.Ok? <==> FoodEntriesTable in old(tables) && !HasKey(old(foods), FoodId, entry.id)
      ensures r.Ok? ==> r.value == Respond(entry) && foods == old(foods) + [entry]
      ensures r.Err? ==> foods == old(foods)
      ensures tables == old(tables) && users == old(users) && glucose == old(glucose)
      ensures medications == old(medications) && chats == old(chats)
    {
      if FoodEntriesTable !in tables {
        return Err(NoSuchTable(FoodEntriesTable));
      }
      if HasKey(foods, FoodId, entry.id) {
        return Err(UniqueViolation(FoodEntriesTable, "id"));
      }
      AppendUnique(foods, FoodId, entry);
      foods := foods + [entry];
      r := Ok(Respond(entry));
    }

    /** `food_entry_get_by_user`: one page of the user's entries in the window, and their total. */
    method FoodEntryGetByUser(userId: string, startDate: string, endDate: string, page: int, pageSize: int)
      returns (r: Result<ApiResponse<PagedResult<FoodEntry>>, SqlError>)
      requires Valid()
      ensures FoodEntriesTable !in tables ==> r == Err(NoSuchTable(FoodEntriesTable))
      ensures FoodEntriesTable in tables ==>
                r == Ok(Respond(PagedResult(RangePage(foods, FoodOwner, FoodStamp, userId, startDate, endDate, page, pageSize),
                                            RangeCount(foods, FoodOwner, FoodStamp, userId, startDate, endDate),
                                            page, pageSize)))
    {
      if FoodEntriesTable !in tables {
        return Err(NoSuchTable(FoodEntriesTable));
      }
      var items := RangePage(foods, FoodOwner, FoodStamp, userId, startDate, endDate, page, pageSize);
      var total := RangeCount(foods, FoodOwner, FoodStamp, userId, startDate, endDate);
      r := Ok(Respond(PagedResult(items, total, page, pageSize)));
    }

    /** `food_entry_delete`: removes the entry with that id, if any, and succeeds either way. */
    method FoodEntryDelete(id: string) returns (r: Result<ApiResponse<string>, SqlError>)
      requires Valid()
      modifies this
      ensures Valid()
      ensures r.Ok? <==> FoodEntriesTable in old(tables)
      ensures r.Ok? ==> r.value == Respond("Deleted") && foods == Filter(old(foods), KeyIsNot(FoodId, id))
      ensures r.Err? ==> foods == old(foods)
      ensures tables == old(tables) && users == old(users) && glucose == old(glucose)
      ensures medications == old(medications) && chats == old(chats)
    {
      if FoodEntriesTable !in tables {
        return Err(NoSuchTable(FoodEntriesTable));
      }
      FilterUnique(foods, FoodId, KeyIsNot(FoodId, id));
      foods := Filter(foods, KeyIsNot(FoodId, id));
      r := Ok(Respond("Deleted"));
    }

    /** `blood_glucose_create` */
    method BloodGlucoseCreate(entry: BloodGlucose) returns (r: Result<ApiResponse<BloodGlucose>, SqlError>)
      requires Valid()
      modifies this
      ensures Valid()
      ensures r.Ok? <==> BloodGlucoseTable in old(tables) && !HasKey(old(glucose), GlucoseId, entry.id)
      ensures r.Ok? ==> r.value == Respond(entry) && glucose == old(glucose) + [entry]
      ensures r.Err? ==> glucose == old(glucose)
      ensures tables == old(tables) && users == old(users) && foods == old(foods)
      ensures medications == old(medications) && chats == old(chats)
    {
      if BloodGlucoseTable !in tables {
        return Err(NoSuchTable(BloodGlucoseTable));
      }
      if HasKey(glucose, GlucoseId, entry.id) {
        return Err(UniqueViolation(BloodGlucoseTable, "id"));
      }
      AppendUnique(glucose, GlucoseId, entry);
      glucose := glucose + [entry];
      r := Ok(Respond(entry));
    }

    /** `blood_glucose_get_by_user` */
    method BloodGlucoseGetByUser(userId: string, startDate: string, endDate: string, page: int, pageSize: int)
      returns (r: Result<ApiResponse<PagedResult<BloodGlucose>>, SqlError>)
      requires Valid()
      ensures BloodGlucoseTable !in tables ==> r == Err(NoSuchTable(BloodGlucoseTable))
      ensures BloodGlucoseTable in tables ==>
                r == Ok(Respond(PagedResult(RangePage(glucose, GlucoseOwner, GlucoseStamp, userId, startDate, endDate, page, pageSize),
                                            RangeCount(glucose, GlucoseOwner, GlucoseStamp, userId, startDate, endDate),
                                            page, pageSize)))
    {
      if BloodGlucoseTable !in tables {
        return Err(NoSuchTable(BloodGlucoseTable));
      }
      var items := RangePage(glucose, GlucoseOwner, GlucoseStamp, userId, startDate, endDate, page, pageSize);
      var total := RangeCount(glucose, GlucoseOwner, GlucoseStamp, userId, startDate, endDate);
      r := Ok(Respond(PagedResult(items, total, page, pageSize)));
    }

    /** `blood_glucose_delete` */
    method BloodGlucoseDelete(id: string) returns (r: Result<ApiResponse<string>, SqlError>)
      requires Valid()
      modifies this
      ensures Valid()
      ensures r.Ok? <==> BloodGlucoseTable in old(tables)
      ensures r.Ok? ==> r.value == Respond("Deleted") && glucose == Filter(old(glucose), KeyIsNot(GlucoseId, id))
      ensures r.Err? ==> glucose == old(glucose)
      ensures tables == old(tables) && users == old(users) && foods == old(foods)
      ensures medications == old(medications) && chats == old(chats)
    {
      if BloodGlucoseTable !in tables {
        return Err(NoSuchTable(BloodGlucoseTable));
      }
      FilterUnique(glucose, GlucoseId, KeyIsNot(GlucoseId, id));
      glucose := Filter(glucose, KeyIsNot(GlucoseId, id));
      r := Ok(Respond("Deleted"));
    }

    /** `medication_create`: stores `is_taken` as 1/0 and echoes the input. */
    method MedicationCreate(entry: Medication) returns (r: Result<ApiResponse<Medication>, SqlError>)
      requires Valid()
      modifies this
      ensures Valid()
      ensures r.Ok? <==> MedicationsTable in old(tables) && !HasKey(old(medications), MedicationId, entry.id)
      ensures r.Ok? ==> r.value == Respond(entry) && medications == old(medications) + [EncodeMedication(entry)]
      ensures r.Err? ==> medications == old(medications)
      ensures tables == old(tables) && users == old(users) && foods == old(foods)
      ensures glucose == old(glucose) && chats == old(chats)
    {
      if MedicationsTable !in tables {
        return Err(NoSuchTable(MedicationsTable));
      }
      var row := EncodeMedication(entry);
      if HasKey(medications, MedicationId, row.id) {
        return Err(UniqueViolation(MedicationsTable, "id"));
      }
      AppendUnique(medications, MedicationId, row);
      medications := medications + [row];
      r := Ok(Respond(entry));
    }

    /** `medication_get_by_user`: the page is selected on rows and decoded afterwards. */
    method MedicationGetByUser(userId: string, startDate: string, endDate: string, page: int, pageSize: int)
      returns (r: Result<ApiResponse<PagedResult<Medication>>, SqlError>)
      requires Valid()
      ensures MedicationsTable !in tables ==> r == Err(NoSuchTable(MedicationsTable))
      ensures MedicationsTable in tables ==>
                r == Ok(Respond(PagedResult(
                       Map(RangePage(medications, MedicationOwner, MedicationStamp, userId, startDate, endDate, page, pageSize), DecodeMedication),
                       RangeCount(medications, MedicationOwner, MedicationStamp, userId, startDate, endDate),
                       page, pageSize)))
    {
      if MedicationsTable !in tables {
        return Err(NoSuchTable(MedicationsTable));
      }
      var rows := RangePage(medications, MedicationOwner, MedicationStamp, userId, startDate, endDate, page, pageSize);
      var total := RangeCount(medications, MedicationOwner, MedicationStamp, userId, startDate, endDate);
      r := Ok(Respond(PagedResult(Map(rows, DecodeMedication), total, page, pageSize)));
    }

    /** `medication_mark_taken`: sets `is_taken = 1` and `actual_time` on the row with that id only. */
    method MedicationMarkTaken(id: string, actualTime: string) returns (r: Result<ApiResponse<string>, SqlError>)
      requires Valid()
      modifies this
      ensures Valid()
      ensures r.Ok? <==> MedicationsTable in old(tables)
      ensures r.Ok? ==> r.value == Respond("Marked as taken")
      ensures |medications| == |old(medications)|
      ensures forall i :: 0 <= i < |medications| ==>
                medications[i] == if r.Ok? && old(medications)[i].id == id
                                  then MarkRowTaken(old(medications)[i], actualTime)
                                  else old(medications)[i]
      ensures tables == old(tables) && users == old(users) && foods == old(foods)
      ensures glucose == old(glucose) && chats == old(chats)
    {
      if MedicationsTable !in tables {
        return Err(NoSuchTable(MedicationsTable));
      }
      var mark := (m: MedicationRow) => if m.id == id then MarkRowTaken(m, actualTime) else m;
      MapKeepsUnique(medications, MedicationId, mark);
      medications := Map(medications, mark);
      r := Ok(Respond("Marked as taken"));
    }

    /** `medication_delete` */
    method MedicationDelete(id: string) returns (r: Result<ApiResponse<string>, SqlError>)
      requires Valid()
      modifies this
      ensures Valid()
      ensures r.Ok? <==> MedicationsTable in old(tables)
      ensures r.Ok? ==> r.value == Respond("Deleted") && medications == Filter(old(medications), KeyIsNot(MedicationId, id))
      ensures r.Err? ==> medications == old(medications)
      ensures tables == old(tables) && users == old(users) && foods == old(foods)
      ensures glucose == old(glucose) && chats == old(chats)
    {
      if MedicationsTable !in tables {
        return Err(NoSuchTable(MedicationsTable));
      }
      FilterUnique(medications, MedicationId, KeyIsNot(MedicationId, id));
      medications := Filter(medications, KeyIsNot(MedicationId, id));
      r := Ok(Respond("Deleted"));
    }

    /** `chat_message_create`: inserts the message and answers "Created". */
    method ChatMessageCreate(message: ChatMessage) returns (r: Result<ApiResponse<string>, SqlError>)
      requires Valid()
      modifies this
      ensures Valid()
      ensures r.Ok? <==> ChatMessagesTable in old(tables) && !HasKey(old(chats), ChatId, message.id)
      ensures r.Ok? ==> r.value == Respond("Created") && chats == old(chats) + [message]
      ensures r.Err? ==> chats == old(chats)
      ensures tables == old(tables) && users == old(users) && foods == old(foods)
      ensures glucose == old(glucose) && medications == old(medications)
    {
      if ChatMessagesTable !in tables {
        return Err(NoSuchTable(ChatMessagesTable));
      }
      if HasKey(chats, ChatId, message.id) {
        return Err(UniqueViolation(ChatMessagesTable, "id"));
      }
      AppendUnique(chats, ChatId, message);
      chats := chats + [message];
      r := Ok(Respond("Created"));
    }

    /** `chat_message_get_history`: the user's `take` newest messages. */
    method ChatMessageGetHistory(userId: string, take: int) returns (r: Result<ApiResponse<seq<ChatMessage>>, SqlError>)
      requires Valid()
      ensures ChatMessagesTable !in tables ==> r == Err(NoSuchTable(ChatMessagesTable))
      ensures ChatMessagesTable in tables ==> r == Ok(Respond(History(chats, userId, take)))
    {
      if ChatMessagesTable !in tables {
        return Err(NoSuchTable(ChatMessagesTable));
      }
      r := Ok(Respond(History(chats, userId, take)));
    }
  }
}
