/**
 * The back-end's Entity Framework context (Infrastructure/Persistence/
 * VitaNoteDbContext.cs): the `HealthRecords` and `FoodRecords` tables, the
 * change tracker, the audit-timestamp hook `UpdateTimestamps` and the four
 * `SaveChanges` overrides that run it before writing.
 *
 * A `DateTime` is its tick count, a `Guid` its text. A `HealthRecord`'s
 * `Data` column holds a value object serialised as JSON; the model stores
 * the value object itself (`Payload`), so "deserialise as a weight value"
 * succeeds exactly when the stored payload is a weight value.
 *
 * The base `SaveChanges` is modelled as one transaction over the tracked
 * entries in tracking order: an added row whose key exists, or a modified
 * or deleted row whose key does not, fails the whole save and writes
 * nothing; otherwise every pending entry is written and the call returns
 * how many there were.
 */
module BackendPersistence {
  import opened Wrappers
  import opened Seqs

  /** `Guid.Empty`: the key of an entity whose key has not been generated yet. */
  const EmptyGuid: string := "00000000-0000-0000-0000-000000000000"

  const TicksPerDay: int := 864_000_000_000

  /** `DateTime.MinValue` and `DateTime.MaxValue` in ticks. */
  const MinTicks: int := 0
  const MaxTicks: int := 3_155_378_975_999_999_999

  /** The audit columns every entity inherits from `BaseModel`. */
  datatype Audit = Audit(createdAt: int, updatedAt: Option<int>, createdBy: string, updatedBy: Option<string>)

  datatype HealthRecordType = Weight | Glucose | BloodPressure

  /** The value objects a health record's `Data` column holds. */
  datatype Payload =
    | WeightValue(weight: real, recordedAt: int, bodyFatPercentage: Option<string>,
                  muscleMass: Option<string>, waterPercentage: Option<string>, comment: Option<string>)
    | GlucoseValue(glucoseLevel: real, recordedAt: int, glucoseType: int, mealType: Option<string>,
                   comment: Option<string>)
    | BloodPressureValue(systolic: int, diastolic: int, recordedAt: int, beatsPerMinute: int,
                         position: Option<string>, comment: Option<string>)

  /** Deserialising `Data` as the value object of type `t` succeeds. */
  predicate HoldsType(p: Payload, t: HealthRecordType)
  {
    match t
    case Weight => p.WeightValue?
    case Glucose => p.GlucoseValue?
    case BloodPressure => p.BloodPressureValue?
  }

  datatype HealthRecord = HealthRecord(
    id: string, audit: Audit, userId: string, recordType: HealthRecordType, data: Payload,
    photoPath: Option<string>)

  datatype FoodRecord = FoodRecord(
    id: string, audit: Audit, userId: string, foodName: string, calories: real, protein: real,
    carbohydrates: real, fat: real, eatenAt: int, mealType: Option<string>, photoPath: Option<string>,
    comment: Option<string>)

  function HealthId(r: HealthRecord): string { r.id }
  function FoodId(r: FoodRecord): string { r.id }

  /** A tracked entity: a row of one of the two tables. */
  datatype Entity = Health(health: HealthRecord) | Food(food: FoodRecord)
  {
    function Key(): string
    {
      match this
      case Health(h) => h.id
      case Food(f) => f.id
    }

    function AuditOf(): Audit
    {
      match this
      case Health(h) => h.audit
      case Food(f) => f.audit
    }

    /** The same entity with its audit columns replaced and every other column kept. */
    function WithAudit(a: Audit): (r: Entity)
      ensures r.Key() == Key() && r.AuditOf() == a
      ensures r.Health? == Health?
    {
      match this
      case Health(h) => Health(h.(audit := a))
      case Food(f) => Food(f.(audit := a))
    }
  }

  /** Replacing the audit columns twice keeps only the second replacement; putting them back restores the entity. */
  lemma WithAuditOverwrites(e: Entity, a: Audit, b: Audit)
    ensures e.WithAudit(a).WithAudit(b) == e.WithAudit(b)
    ensures e.WithAudit(e.AuditOf()) == e
  {
  }

  datatype EntityState = Detached | Unchanged | Deleted | Modified | Added

  datatype TrackedEntry = TrackedEntry(state: EntityState, entity: Entity)

  predicate IsPending(e: TrackedEntry)
  {
    e.state.Added? || e.state.Modified? || e.state.Deleted?
  }

  // ---------------------------------------------------------------- the audit hook

  /**
   * What `UpdateTimestamps` does to one tracked entry: an added entity is
   * created and updated now by the current user, a modified one keeps its
   * creation columns and is updated now by the current user, and any other
   * entry is left alone. Only the audit columns change.
   */
  function Stamped(e: TrackedEntry, now: int, userId: string): (r: TrackedEntry)
    ensures r.state == e.state && r.entity.Key() == e.entity.Key()
    ensures r.entity.WithAudit(e.entity.AuditOf()) == e.entity
    ensures e.state.Added? ==> r.entity.AuditOf() == Audit(now, Some(now), userId, Some(userId))
    ensures e.state.Modified? ==>
              && r.entity.AuditOf().createdAt == e.entity.AuditOf().createdAt
              && r.entity.AuditOf().createdBy == e.entity.AuditOf().createdBy
              && r.entity.AuditOf().updatedAt == Some(now)
              && r.entity.AuditOf().updatedBy == Some(userId)
    ensures !(e.state.Added? || e.state.Modified?) ==> r == e
  {
    if e.state.Added? || e.state.Modified? then
      var a := e.entity.AuditOf();
      var created := if e.state.Added? then a.(createdAt := now, createdBy := userId) else a;
      var entity := e.entity.WithAudit(created.(updatedAt := Some(now), updatedBy := Some(userId)));
      assert entity.WithAudit(a) == e.entity by {
        WithAuditOverwrites(e.entity, created.(updatedAt := Some(now), updatedBy := Some(userId)), a);
      }
      e.(entity := entity)
    else
      e
  }

  function Stamp(now: int, userId: string): TrackedEntry -> TrackedEntry
  {
    (e: TrackedEntry) => Stamped(e, now, userId)
  }

  /** Running the hook twice with the same clock and user is the same as running it once. */
  lemma StampIdempotent(e: TrackedEntry, now: int, userId: string)
    ensures Stamped(Stamped(e, now, userId), now, userId) == Stamped(e, now, userId)
  {
    var once := Stamped(e, now, userId);
    var twice := Stamped(once, now, userId);
    if e.state.Added? || e.state.Modified? {
      assert twice.entity.AuditOf() == once.entity.AuditOf();
      WithAuditOverwrites(twice.entity, once.entity.AuditOf(), twice.entity.AuditOf());
      WithAuditOverwrites(once.entity, once.entity.AuditOf(), once.entity.AuditOf());
    }
  }

  // ---------------------------------------------------------------- writing one entry

  /** The two tables of the database. */
  datatype Tables = Tables(health: seq<HealthRecord>, food: seq<FoodRecord>)

  /**
   * `SaveChanges` failures: a row whose key already exists (a primary-key
   * violation, `DbUpdateException`) or an update or delete of a row that is
   * not there (`DbUpdateConcurrencyException`).
   */
  datatype DbError = DuplicateKey | ConcurrencyError

  /** What writing one entry in state `state` does to a table. */
  function WriteRow<R(!new)>(rows: seq<R>, key: R -> string, state: EntityState, row: R): (r: Result<seq<R>, DbError>)
    ensures state.Added? ==>
              if HasKey(rows, key, key(row)) then r == Err(DuplicateKey) else r == Ok(rows + [row])
    ensures state.Modified? ==>
              if HasKey(rows, key, key(row)) then r == Ok(Map(rows, Replace(key, row))) else r == Err(ConcurrencyError)
    ensures state.Deleted? ==>
              if HasKey(rows, key, key(row)) then r == Ok(Filter(rows, KeyIsNot(key, key(row))))
              else r == Err(ConcurrencyError)
    ensures !(state.Added? || state.Modified? || state.Deleted?) ==> r == Ok(rows)
    ensures UniqueKeys(rows, key) && r.Ok? ==> UniqueKeys(r.value, key)
  {
    match state
    case Added =>
      if HasKey(rows, key, key(row)) then Err(DuplicateKey)
      else
        assert UniqueKeys(rows, key) ==> UniqueKeys(rows + [row], key) by {
          if UniqueKeys(rows, key) { AppendUnique(rows, key, row); }
        }
        Ok(rows + [row])
    case Modified =>
      if HasKey(rows, key, key(row)) then
        assert UniqueKeys(rows, key) ==> UniqueKeys(Map(rows, Replace(key, row)), key) by {
          if UniqueKeys(rows, key) { MapKeepsUnique(rows, key, Replace(key, row)); }
        }
        Ok(Map(rows, Replace(key, row)))
      else Err(ConcurrencyError)
    case Deleted =>
      if HasKey(rows, key, key(row)) then
        assert UniqueKeys(rows, key) ==> UniqueKeys(Filter(rows, KeyIsNot(key, key(row))), key) by {
          if UniqueKeys(rows, key) { FilterUnique(rows, key, KeyIsNot(key, key(row))); }
        }
        Ok(Filter(rows, KeyIsNot(key, key(row))))
      else Err(ConcurrencyError)
    case _ => Ok(rows)
  }

  ghost predicate TablesValid(t: Tables)
  {
    UniqueKeys(t.health, HealthId) && UniqueKeys(t.food, FoodId)
  }

  /** Writing one tracked entry to the table its entity belongs to. */
  function Write(t: Tables, e: TrackedEntry): (r: Result<Tables, DbError>)
    ensures TablesValid(t) && r.Ok? ==> TablesValid(r.value)
    ensures !IsPending(e) ==> r == Ok(t)
    ensures r.Ok? && e.entity.Health? ==> r.value.food == t.food
    ensures r.Ok? && e.entity.Food? ==> r.value.health == t.health
  {
    match e.entity
    case Health(h) =>
      var w := WriteRow(t.health, HealthId, e.state, h);
      if w.Err? then Err(w.error) else Ok(t.(health := w.value))
    case Food(f) =>
      var w := WriteRow(t.food, FoodId, e.state, f);
      if w.Err? then Err(w.error) else Ok(t.(food := w.value))
  }

  /** The base `SaveChanges`: every entry written in order, all or nothing. */
  function Commit(t: Tables, entries: seq<TrackedEntry>): (r: Result<Tables, DbError>)
    ensures TablesValid(t) && r.Ok? ==> TablesValid(r.value)
    decreases |entries|
  {
    if entries == [] then Ok(t)
    else
      var w := Write(t, entries[0]);
      if w.Err? then Err(w.error) else Commit(w.value, entries[1..])
  }

  /** All tracked entities are saved: nothing is waiting to be written. */
  ghost predicate Settled(entries: seq<TrackedEntry>)
  {
    forall i | 0 <= i < |entries| :: !IsPending(entries[i])
  }

  /** With every earlier entry settled, saving writes exactly the one new entry. */
  lemma {:induction false} CommitOne(t: Tables, entries: seq<TrackedEntry>, e: TrackedEntry)
    requires Settled(entries)
    ensures Commit(t, entries + [e]) == Write(t, e)
    decreases |entries|
  {
    if entries == [] {
      assert [e][1..] == [];
    } else {
      assert (entries + [e])[0] == entries[0];
      assert (entries + [e])[1..] == entries[1..] + [e];
      assert Settled(entries[1..]) by {
        forall i | 0 <= i < |entries[1..]| ensures !IsPending(entries[1..][i]) {
          assert entries[1..][i] == entries[i + 1];
        }
      }
      CommitOne(t, entries[1..], e);
    }
  }

  /** `AcceptAllChanges`: added and modified entities become unchanged, deleted ones are detached. */
  function Accept(e: TrackedEntry): TrackedEntry
  {
    if e.state.Added? || e.state.Modified? then e.(state := Unchanged) else e
  }

  function NotDeleted(e: TrackedEntry): bool { !e.state.Deleted? }

  function Accepted(entries: seq<TrackedEntry>): (r: seq<TrackedEntry>)
    ensures Settled(r)
    ensures |r| == |entries| - Count(entries, (e: TrackedEntry) => e.state.Deleted?)
  {
    var kept := Filter(entries, NotDeleted);
    var r := Map(kept, Accept);
    assert forall i | 0 <= i < |kept| :: NotDeleted(kept[i]) by {
      forall i | 0 <= i < |kept| ensures NotDeleted(kept[i]) {
        assert kept[i] in kept;
      }
    }
    FilterCountComplement(entries, NotDeleted, (e: TrackedEntry) => e.state.Deleted?);
    r
  }

  // ---------------------------------------------------------------- the context

  class VitaNoteDbContext {
    /** The `HealthRecords` and `FoodRecords` tables. */
    var healthRecords: seq<HealthRecord>
    var foodRecords: seq<FoodRecord>
    /** `ChangeTracker.Entries<BaseModel>()`, in tracking order. */
    var tracker: seq<TrackedEntry>
    /** `_currentUserId`, fixed when the context is created. */
    const currentUserId: string

    ghost predicate Valid()
      reads this
    {
      TablesValid(Tables(healthRecords, foodRecords))
    }

    function Database(): Tables
      reads this
    {
      Tables(healthRecords, foodRecords)
    }

    constructor(currentUserId: string)
      ensures Valid() && this.currentUserId == currentUserId
      ensures healthRecords == [] && foodRecords == [] && tracker == []
    {
      this.currentUserId := currentUserId;
      healthRecords := [];
      foodRecords := [];
      tracker := [];
    }

    /** Starts tracking an entity in the given state (`Add`, `Update`, `Remove`). */
    method Track(state: EntityState, entity: Entity)
      modifies this
      ensures tracker == old(tracker) + [TrackedEntry(state, entity)]
      ensures healthRecords == old(healthRecords) && foodRecords == old(foodRecords)
    {
      tracker := tracker + [TrackedEntry(state, entity)];
    }

    /** `UpdateTimestamps`: stamps every added or modified entry in place. */
    method UpdateTimestamps(now: int)
      modifies this
      ensures tracker == Map(old(tracker), Stamp(now, currentUserId))
      ensures healthRecords == old(healthRecords) && foodRecords == old(foodRecords)
    {
      var i := 0;
      while i < |tracker|
        invariant 0 <= i <= |tracker| == |old(tracker)|
        invariant forall k | 0 <= k < i :: tracker[k] == Stamped(old(tracker)[k], now, currentUserId)
        invariant forall k | i <= k < |tracker| :: tracker[k] == old(tracker)[k]
        invariant healthRecords == old(healthRecords) && foodRecords == old(foodRecords)
      {
        var entry := tracker[i];
        if entry.state == Added || entry.state == Modified {
          var audit := entry.entity.AuditOf();
          if entry.state == Added {
            audit := audit.(createdAt := now, createdBy := currentUserId);
          }
          audit := audit.(updatedAt := Some(now), updatedBy := Some(currentUserId));
          tracker := tracker[i := entry.(entity := entry.entity.WithAudit(audit))];
        }
        i := i + 1;
      }
    }

    /**
     * The base `SaveChanges(acceptAllChangesOnSuccess)`: writes every pending
     * entry or none, and returns how many it wrote.
     */
    method BaseSaveChanges(acceptAllChangesOnSuccess: bool) returns (r: Result<int, DbError>)
      requires Valid()
      modifies this
      ensures Valid()
      ensures var c := Commit(old(Database()), old(tracker));
              if c.Err? then
                && r == Err(c.error) && Database() == old(Database()) && tracker == old(tracker)
              else
                && r == Ok(Count(old(tracker), IsPending)) && Database() == c.value
                && tracker == (if acceptAllChangesOnSuccess then Accepted(old(tracker)) else old(tracker))
    {
      var c := Commit(Database(), tracker);
      if c.Err? {
        r := Err(c.error);
      } else {
        r := Ok(Count(tracker, IsPending));
        healthRecords := c.value.health;
        foodRecords := c.value.food;
        if acceptAllChangesOnSuccess {
          tracker := Accepted(tracker);
        }
      }
    }

    /** `SaveChanges()`: the hook, then a save that accepts the changes. */
    method SaveChanges(now: int) returns (r: Result<int, DbError>)
      requires Valid()
      modifies this
      ensures Valid()
      ensures var stamped := Map(old(tracker), Stamp(now, currentUserId));
              var c := Commit(old(Database()), stamped);
              if c.Err? then r == Err(c.error) && Database() == old(Database()) && tracker == stamped
              else r == Ok(Count(stamped, IsPending)) && Database() == c.value && tracker == Accepted(stamped)
    {
      UpdateTimestamps(now);
      r := BaseSaveChanges(true);
    }

    /** `SaveChanges(bool acceptAllChangesOnSuccess)` */
    method SaveChangesAccepting(acceptAllChangesOnSuccess: bool, now: int) returns (r: Result<int, DbError>)
      requires Valid()
      modifies this
      ensures Valid()
      ensures var stamped := Map(old(tracker), Stamp(now, currentUserId));
              var c := Commit(old(Database()), stamped);
              if c.Err? then r == Err(c.error) && Database() == old(Database()) && tracker == stamped
              else
                && r == Ok(Count(stamped, IsPending)) && Database() == c.value
                && tracker == (if acceptAllChangesOnSuccess then Accepted(stamped) else stamped)
    {
      UpdateTimestamps(now);
      r := BaseSaveChanges(acceptAllChangesOnSuccess);
    }

    /** `SaveChangesAsync(CancellationToken)`; cancellation is not modelled. */
    method SaveChangesAsync(now: int) returns (r: Result<int, DbError>)
      requires Valid()
      modifies this
      ensures Valid()
      ensures var stamped := Map(old(tracker), Stamp(now, currentUserId));
              var c := Commit(old(Database()), stamped);
              if c.Err? then r == Err(c.error) && Database() == old(Database()) && tracker == stamped
              else r == Ok(Count(stamped, IsPending)) && Database() == c.value && tracker == Accepted(stamped)
    {
      UpdateTimestamps(now);
      r := BaseSaveChanges(true);
    }

    /** `SaveChangesAsync(bool acceptAllChangesOnSuccess, CancellationToken)` */
    method SaveChangesAsyncAccepting(acceptAllChangesOnSuccess: bool, now: int) returns (r: Result<int, DbError>)
      requires Valid()
      modifies this
      ensures Valid()
      ensures var stamped := Map(old(tracker), Stamp(now, currentUserId));
              var c := Commit(old(Database()), stamped);
              if c.Err? then r == Err(c.error) && Database() == old(Database()) && tracker == stamped
              else
                && r == Ok(Count(stamped, IsPending)) && Database() == c.value
                && tracker == (if acceptAllChangesOnSuccess then Accepted(stamped) else stamped)
    {
      UpdateTimestamps(now);
      r := BaseSaveChanges(acceptAllChangesOnSuccess);
    }
  }

  /**
   * Saving a settled tracker plus one new entry writes that entry, stamped:
   * this is what every repository call does.
   */
  lemma SaveOne(t: Tables, entries: seq<TrackedEntry>, e: TrackedEntry, now: int, userId: string)
    requires Settled(entries)
    ensures var stamped := Map(entries + [e], Stamp(now, userId));
            && Commit(t, stamped) == Write(t, Stamped(e, now, userId))
            && Count(stamped, IsPending) == (if IsPending(e) then 1 else 0)
  {
    var stamped := Map(entries + [e], Stamp(now, userId));
    var prefix := Map(entries, Stamp(now, userId));
    assert stamped == prefix + [Stamped(e, now, userId)];
    assert Settled(prefix) by {
      forall i | 0 <= i < |prefix| ensures !IsPending(prefix[i]) {
        assert prefix[i] == Stamped(entries[i], now, userId);
      }
    }
    CommitOne(t, prefix, Stamped(e, now, userId));
    CountSettled(prefix, Stamped(e, now, userId));
  }

  lemma {:induction false} CountSettled(entries: seq<TrackedEntry>, e: TrackedEntry)
    requires Settled(entries)
    ensures Count(entries + [e], IsPending) == (if IsPending(e) then 1 else 0)
    decreases |entries|
  {
    if entries == [] {
      assert [e][1..] == [];
    } else {
      assert (entries + [e])[1..] == entries[1..] + [e];
      assert Settled(entries[1..]) by {
        forall i | 0 <= i < |entries[1..]| ensures !IsPending(entries[1..][i]) {
          assert entries[1..][i] == entries[i + 1];
        }
      }
      CountSettled(entries[1..], e);
    }
  }
}
