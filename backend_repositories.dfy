/**
 * The back-end's repositories (Infrastructure/Repositories): queries over
 * one table of the context, and add, update and delete, each of which
 * tracks one entity and saves.
 *
 * Queries read the tables. Entities a query or `FindAsync` returns are not
 * put in the change tracker here; the tracker only ever holds what the
 * repositories add, update or remove, and every successful save settles it
 * again. `Guid` generation for a record whose key is `Guid.Empty` is the
 * `freshId` parameter; the clock is `now`.
 */
module BackendRepositories {
  import opened Wrappers
  import opened Seqs
  import opened BackendPersistence

  function EatenAt(r: FoodRecord): int { r.eatenAt }
  function CreatedAt(r: HealthRecord): int { r.audit.createdAt }

  /** `date.Date`: midnight at the start of the day holding `date`. */
  function StartOfDay(date: int): (r: int)
    ensures r <= date < r + TicksPerDay
    ensures r % TicksPerDay == 0
  {
    date - date % TicksPerDay
  }

  function FoodOwnedBy(userId: string): FoodRecord -> bool
  {
    (r: FoodRecord) => r.userId == userId
  }

  /** `date.Date <= EatenAt < date.Date.AddDays(1)`: the records of that calendar day. */
  function EatenOn(userId: string, date: int): FoodRecord -> bool
  {
    (r: FoodRecord) => r.userId == userId && StartOfDay(date) <= r.eatenAt < StartOfDay(date) + TicksPerDay
  }

  /** `startDate <= EatenAt <= endDate`: both ends included. */
  function EatenBetween(userId: string, startDate: int, endDate: int): FoodRecord -> bool
  {
    (r: FoodRecord) => r.userId == userId && startDate <= r.eatenAt <= endDate
  }

  function HealthOwnedBy(userId: string): HealthRecord -> bool
  {
    (r: HealthRecord) => r.userId == userId
  }

  function OfType(userId: string, t: HealthRecordType): HealthRecord -> bool
  {
    (r: HealthRecord) => r.userId == userId && r.recordType == t
  }

  /** `startDate <= CreatedAt <= endDate`, of any record type. */
  function CreatedBetween(userId: string, startDate: int, endDate: int): HealthRecord -> bool
  {
    (r: HealthRecord) => r.userId == userId && startDate <= r.audit.createdAt <= endDate
  }

  /** Two readings of a date are on the same day exactly when `EatenOn` agrees for every record. */
  lemma EatenOnSameDay(userId: string, date: int, r: FoodRecord)
    ensures EatenOn(userId, date)(r) <==> r.userId == userId && StartOfDay(r.eatenAt) == StartOfDay(date)
  {
    var d := StartOfDay(date);
    if r.userId == userId && d <= r.eatenAt < d + TicksPerDay {
      var k := r.eatenAt - d;
      assert r.eatenAt == d + k && 0 <= k < TicksPerDay;
      assert d / TicksPerDay * TicksPerDay == d;
      assert r.eatenAt % TicksPerDay == k;
    }
    if r.userId == userId && StartOfDay(r.eatenAt) == d {
      assert d <= r.eatenAt < d + TicksPerDay;
    }
  }

  /** The key `Add` or `Update` gives a record: a generated one when its key is `Guid.Empty`. */
  function KeyFor(id: string, freshId: string): string
  {
    if id == EmptyGuid then freshId else id
  }

  /** The audit columns of a record the hook saved as added. */
  function AddedAudit(now: int, userId: string): Audit
  {
    Audit(now, Some(now), userId, Some(userId))
  }

  /** The audit columns of a record the hook saved as modified. */
  function ModifiedAudit(a: Audit, now: int, userId: string): Audit
  {
    a.(updatedAt := Some(now), updatedBy := Some(userId))
  }

  class FoodRecordRepository {
    const context: VitaNoteDbContext

    constructor(context: VitaNoteDbContext)
      ensures this.context == context
    {
      this.context := context;
    }

    /** `GetByIdAsync`: the record with that key, if there is one. */
    method GetById(id: string) returns (r: Option<FoodRecord>)
      requires context.Valid()
      ensures r.Some? <==> HasKey(context.foodRecords, FoodId, id)
      ensures r.Some? ==> r.value in context.foodRecords && r.value.id == id
    {
      r := FirstWithKey(context.foodRecords, FoodId, id);
    }

    /** `GetByUserIdAsync`: the user's records, latest meal first. */
    method GetByUserId(userId: string) returns (r: seq<FoodRecord>)
      ensures r == Query(context.foodRecords, FoodOwnedBy(userId), EatenAt)
      ensures forall x :: x in r <==> x in context.foodRecords && x.userId == userId
      ensures SortedBy(r, Descending(EatenAt))
    {
      r := Query(context.foodRecords, FoodOwnedBy(userId), EatenAt);
      QuerySound(context.foodRecords, FoodOwnedBy(userId), EatenAt);
    }

    /** `GetByDateAsync`: the user's records of the day holding `date`, latest meal first. */
    method GetByDate(userId: string, date: int) returns (r: seq<FoodRecord>)
      ensures r == Query(context.foodRecords, EatenOn(userId, date), EatenAt)
      ensures forall x :: x in r <==>
                x in context.foodRecords && x.userId == userId && StartOfDay(x.eatenAt) == StartOfDay(date)
      ensures SortedBy(r, Descending(EatenAt))
    {
      var startOfDay := StartOfDay(date);
      var endOfDay := startOfDay + TicksPerDay;
      r := Query(context.foodRecords,
                 (f: FoodRecord) => f.userId == userId && startOfDay <= f.eatenAt < endOfDay, EatenAt);
      FilterExtensional(context.foodRecords,
                        (f: FoodRecord) => f.userId == userId && startOfDay <= f.eatenAt < endOfDay,
                        EatenOn(userId, date));
      QuerySound(context.foodRecords, EatenOn(userId, date), EatenAt);
      forall x ensures EatenOn(userId, date)(x) <==> x.userId == userId && StartOfDay(x.eatenAt) == StartOfDay(date) {
        EatenOnSameDay(userId, date, x);
      }
    }

    /** `GetByDateRangeAsync`: the user's records eaten in `[startDate, endDate]`, latest first. */
    method GetByDateRange(userId: string, startDate: int, endDate: int) returns (r: seq<FoodRecord>)
      ensures r == Query(context.foodRecords, EatenBetween(userId, startDate, endDate), EatenAt)
      ensures forall x :: x in r <==>
                x in context.foodRecords && x.userId == userId && startDate <= x.eatenAt <= endDate
      ensures SortedBy(r, Descending(EatenAt))
    {
      r := Query(context.foodRecords, EatenBetween(userId, startDate, endDate), EatenAt);
      QuerySound(context.foodRecords, EatenBetween(userId, startDate, endDate), EatenAt);
    }

    /**
     * `AddAsync`: tracks the record as added and saves. The record gets a
     * generated key if it had none, and the hook's audit columns; a key
     * already in the table fails the save.
     */
    method Add(record: FoodRecord, freshId: string, now: int) returns (r: Result<FoodRecord, DbError>)
      requires context.Valid() && Settled(context.tracker)
      requires freshId != EmptyGuid && !HasKey(context.foodRecords, FoodId, freshId)
      modifies context
      ensures context.Valid() && context.healthRecords == old(context.healthRecords)
      ensures var stored := record.(id := KeyFor(record.id, freshId), audit := AddedAudit(now, context.currentUserId));
              if HasKey(old(context.foodRecords), FoodId, stored.id) then
                r == Err(DuplicateKey) && context.foodRecords == old(context.foodRecords)
              else
                && r == Ok(stored) && context.foodRecords == old(context.foodRecords) + [stored]
                && Settled(context.tracker)
      ensures r.Ok? ==> FirstWithKey(context.foodRecords, FoodId, r.value.id) == Some(r.value)
    {
      var entry := TrackedEntry(Added, Food(record.(id := KeyFor(record.id, freshId))));
      SaveOne(context.Database(), context.tracker, entry, now, context.currentUserId);
      context.Track(entry.state, entry.entity);
      var saved := context.SaveChangesAsync(now);
      if saved.Err? {
        r := Err(saved.error);
      } else {
        r := Ok(record.(id := KeyFor(record.id, freshId), audit := AddedAudit(now, context.currentUserId)));
        FindAfterAppend(old(context.foodRecords), FoodId, r.value);
      }
    }

    /**
     * `UpdateAsync`: a record without a key is added under a generated key;
     * one with a key replaces the stored row with that key, keeping the
     * record's creation columns; an unknown key fails the save.
     */
    method Update(record: FoodRecord, freshId: string, now: int) returns (r: Result<FoodRecord, DbError>)
      requires context.Valid() && Settled(context.tracker)
      requires freshId != EmptyGuid && !HasKey(context.foodRecords, FoodId, freshId)
      modifies context
      ensures context.Valid() && context.healthRecords == old(context.healthRecords)
      ensures record.id == EmptyGuid ==>
                var stored := record.(id := freshId, audit := AddedAudit(now, context.currentUserId));
                r == Ok(stored) && context.foodRecords == old(context.foodRecords) + [stored]
      ensures record.id != EmptyGuid ==>
                var stored := record.(audit := ModifiedAudit(record.audit, now, context.currentUserId));
                if HasKey(old(context.foodRecords), FoodId, record.id) then
                  r == Ok(stored) && context.foodRecords == Map(old(context.foodRecords), Replace(FoodId, stored))
                else
                  r == Err(ConcurrencyError) && context.foodRecords == old(context.foodRecords)
      ensures r.Ok? ==> Settled(context.tracker)
    {
      var state := if record.id == EmptyGuid then Added else Modified;
      var entry := TrackedEntry(state, Food(record.(id := KeyFor(record.id, freshId))));
      SaveOne(context.Database(), context.tracker, entry, now, context.currentUserId);
      context.Track(entry.state, entry.entity);
      var saved := context.SaveChangesAsync(now);
      if saved.Err? {
        r := Err(saved.error);
      } else if record.id == EmptyGuid {
        r := Ok(record.(id := freshId, audit := AddedAudit(now, context.currentUserId)));
      } else {
        r := Ok(record.(audit := ModifiedAudit(record.audit, now, context.currentUserId)));
      }
    }

    /** `DeleteAsync`: removes the row with the record's key; an unknown key fails the save. */
    method Delete(record: FoodRecord, now: int) returns (r: Result<(), DbError>)
      requires context.Valid() && Settled(context.tracker)
      modifies context
      ensures context.Valid() && context.healthRecords == old(context.healthRecords)
      ensures if HasKey(old(context.foodRecords), FoodId, record.id) then
                && r == Ok(()) && Settled(context.tracker)
                && context.foodRecords == Filter(old(context.foodRecords), KeyIsNot(FoodId, record.id))
              else
                r == Err(ConcurrencyError) && context.foodRecords == old(context.foodRecords)
      ensures FirstWithKey(context.foodRecords, FoodId, record.id) == None
      ensures forall x :: x in old(context.foodRecords) && x.id != record.id ==> x in context.foodRecords
    {
      FindAfterDelete(context.foodRecords, FoodId, record.id);
      var entry := TrackedEntry(Deleted, Food(record));
      SaveOne(context.Database(), context.tracker, entry, now, context.currentUserId);
      context.Track(entry.state, entry.entity);
      var saved := context.SaveChangesAsync(now);
      if saved.Err? {
        r := Err(saved.error);
      } else {
        r := Ok(());
      }
    }
  }

  class HealthRecordRepository {
    const context: VitaNoteDbContext

    constructor(context: VitaNoteDbContext)
      ensures this.context == context
    {
      this.context := context;
    }

    /** `GetByIdAsync`: the record with that key, if there is one. */
    method GetById(id: string) returns (r: Option<HealthRecord>)
      requires context.Valid()
      ensures r.Some? <==> HasKey(context.healthRecords, HealthId, id)
      ensures r.Some? ==> r.value in context.healthRecords && r.value.id == id
    {
      r := FirstWithKey(context.healthRecords, HealthId, id);
    }

    /** `GetByUserIdAsync`: the user's records of every type, newest first. */
    method GetByUserId(userId: string) returns (r: seq<HealthRecord>)
      ensures r == Query(context.healthRecords, HealthOwnedBy(userId), CreatedAt)
      ensures forall x :: x in r <==> x in context.healthRecords && x.userId == userId
      ensures SortedBy(r, Descending(CreatedAt))
    {
      r := Query(context.healthRecords, HealthOwnedBy(userId), CreatedAt);
      QuerySound(context.healthRecords, HealthOwnedBy(userId), CreatedAt);
    }

    /** `GetByTypeAsync`: the user's records of one type, newest first. */
    method GetByType(userId: string, t: HealthRecordType) returns (r: seq<HealthRecord>)
      ensures r == Query(context.healthRecords, OfType(userId, t), CreatedAt)
      ensures forall x :: x in r <==> x in context.healthRecords && x.userId == userId && x.recordType == t
      ensures SortedBy(r, Descending(CreatedAt))
    {
      r := Query(context.healthRecords, OfType(userId, t), CreatedAt);
      QuerySound(context.healthRecords, OfType(userId, t), CreatedAt);
    }

    /** `GetByDateRangeAsync`: the user's records created in `[startDate, endDate]`, of every type. */
    method GetByDateRange(userId: string, startDate: int, endDate: int) returns (r: seq<HealthRecord>)
      ensures r == Query(context.healthRecords, CreatedBetween(userId, startDate, endDate), CreatedAt)
      ensures forall x :: x in r <==>
                x in context.healthRecords && x.userId == userId && startDate <= x.audit.createdAt <= endDate
      ensures SortedBy(r, Descending(CreatedAt))
    {
      r := Query(context.healthRecords, CreatedBetween(userId, startDate, endDate), CreatedAt);
      QuerySound(context.healthRecords, CreatedBetween(userId, startDate, endDate), CreatedAt);
    }

    /** `AddAsync`: as for food records. */
    method Add(record: HealthRecord, freshId: string, now: int) returns (r: Result<HealthRecord, DbError>)
      requires context.Valid() && Settled(context.tracker)
      requires freshId != EmptyGuid && !HasKey(context.healthRecords, HealthId, freshId)
      modifies context
      ensures context.Valid() && context.foodRecords == old(context.foodRecords)
      ensures var stored := record.(id := KeyFor(record.id, freshId), audit := AddedAudit(now, context.currentUserId));
              if HasKey(old(context.healthRecords), HealthId, stored.id) then
                r == Err(DuplicateKey) && context.healthRecords == old(context.healthRecords)
              else
                && r == Ok(stored) && context.healthRecords == old(context.healthRecords) + [stored]
                && Settled(context.tracker)
      ensures r.Ok? ==> FirstWithKey(context.healthRecords, HealthId, r.value.id) == Some(r.value)
    {
      var entry := TrackedEntry(Added, Health(record.(id := KeyFor(record.id, freshId))));
      SaveOne(context.Database(), context.tracker, entry, now, context.currentUserId);
      context.Track(entry.state, entry.entity);
      var saved := context.SaveChangesAsync(now);
      if saved.Err? {
        r := Err(saved.error);
      } else {
        r := Ok(record.(id := KeyFor(record.id, freshId), audit := AddedAudit(now, context.currentUserId)));
        FindAfterAppend(old(context.healthRecords), HealthId, r.value);
      }
    }

    /** `UpdateAsync`: as for food records. */
    method Update(record: HealthRecord, freshId: string, now: int) returns (r: Result<HealthRecord, DbError>)
      requires context.Valid() && Settled(context.tracker)
      requires freshId != EmptyGuid && !HasKey(context.healthRecords, HealthId, freshId)
      modifies context
      ensures context.Valid() && context.foodRecords == old(context.foodRecords)
      ensures record.id == EmptyGuid ==>
                var stored := record.(id := freshId, audit := AddedAudit(now, context.currentUserId));
                r == Ok(stored) && context.healthRecords == old(context.healthRecords) + [stored]
      ensures record.id != EmptyGuid ==>
                var stored := record.(audit := ModifiedAudit(record.audit, now, context.currentUserId));
                if HasKey(old(context.healthRecords), HealthId, record.id) then
                  r == Ok(stored) && context.healthRecords == Map(old(context.healthRecords), Replace(HealthId, stored))
                else
                  r == Err(ConcurrencyError) && context.healthRecords == old(context.healthRecords)
      ensures r.Ok? ==> Settled(context.tracker)
    {
      var state := if record.id == EmptyGuid then Added else Modified;
      var entry := TrackedEntry(state, Health(record.(id := KeyFor(record.id, freshId))));
      SaveOne(context.Database(), context.tracker, entry, now, context.currentUserId);
      context.Track(entry.state, entry.entity);
      var saved := context.SaveChangesAsync(now);
      if saved.Err? {
        r := Err(saved.error);
      } else if record.id == EmptyGuid {
        r := Ok(record.(id := freshId, audit := AddedAudit(now, context.currentUserId)));
      } else {
        r := Ok(record.(audit := ModifiedAudit(record.audit, now, context.currentUserId)));
      }
    }

    /** `DeleteAsync`: as for food records. */
    method Delete(record: HealthRecord, now: int) returns (r: Result<(), DbError>)
      requires context.Valid() && Settled(context.tracker)
      modifies context
      ensures context.Valid() && context.foodRecords == old(context.foodRecords)
      ensures if HasKey(old(context.healthRecords), HealthId, record.id) then
                && r == Ok(()) && Settled(context.tracker)
                && context.healthRecords == Filter(old(context.healthRecords), KeyIsNot(HealthId, record.id))
              else
                r == Err(ConcurrencyError) && context.healthRecords == old(context.healthRecords)
      ensures FirstWithKey(context.healthRecords, HealthId, record.id) == None
      ensures forall x :: x in old(context.healthRecords) && x.id != record.id ==> x in context.healthRecords
    {
      FindAfterDelete(context.healthRecords, HealthId, record.id);
      var entry := TrackedEntry(Deleted, Health(record));
      SaveOne(context.Database(), context.tracker, entry, now, context.currentUserId);
      context.Track(entry.state, entry.entity);
      var saved := context.SaveChangesAsync(now);
      if saved.Err? {
        r := Err(saved.error);
      } else {
        r := Ok(());
      }
    }
  }
}
