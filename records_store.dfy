/**
 * The web client's records store (frontend/src/store/recordsStore.ts): the
 * lists of weight, glucose, blood-pressure and food records last fetched,
 * the statistics, the trend analysis and the loading and error flags.
 *
 * Each action is a function from the state before to the state after:
 * zustand's `set` merges the object an action returns into the state, so
 * every field the action does not name keeps its value. The store is a
 * JavaScript object, so an action may also create a key the `RecordsState`
 * interface does not declare; such keys are kept in `extra`.
 */
module RecordsStore {
  import opened Wrappers
  import opened Seqs

  /** A JSON object received from the server, by field name. */
  datatype Document = Document(fields: map<string, string>)

  /** A record response; the store only ever looks at its `id`. */
  datatype Row = Row(id: string, document: Document)

  datatype RecordKind = WeightKind | GlucoseKind | BloodPressureKind | FoodKind
  {
    /** The `type` argument the actions take. */
    function Name(): string
    {
      match this
      case WeightKind => "weight"
      case GlucoseKind => "glucose"
      case BloodPressureKind => "blood-pressure"
      case FoodKind => "food"
    }
  }

  datatype RecordsState = RecordsState(
    weightRecords: seq<Row>, glucoseRecords: seq<Row>, bloodPressureRecords: seq<Row>,
    foodRecords: seq<Row>, statistics: Option<Document>, trendAnalysis: Option<Document>,
    isLoading: bool, error: Option<string>, extra: map<string, seq<Row>>)

  /** The store as `create` builds it. */
  function Initial(): RecordsState
  {
    RecordsState([], [], [], [], None, None, false, None, map[])
  }

  /** The declared list holding records of `kind`. */
  function List(s: RecordsState, kind: RecordKind): seq<Row>
  {
    match kind
    case WeightKind => s.weightRecords
    case GlucoseKind => s.glucoseRecords
    case BloodPressureKind => s.bloodPressureRecords
    case FoodKind => s.foodRecords
  }

  /** The state with the declared list of `kind` replaced. */
  function WithList(s: RecordsState, kind: RecordKind, rows: seq<Row>): (r: RecordsState)
    ensures List(r, kind) == rows
    ensures forall k :: k != kind ==> List(r, k) == List(s, k)
    ensures r.(weightRecords := s.weightRecords, glucoseRecords := s.glucoseRecords,
               bloodPressureRecords := s.bloodPressureRecords, foodRecords := s.foodRecords) == s
  {
    match kind
    case WeightKind => s.(weightRecords := rows)
    case GlucoseKind => s.(glucoseRecords := rows)
    case BloodPressureKind => s.(bloodPressureRecords := rows)
    case FoodKind => s.(foodRecords := rows)
  }

  /** `addWeightRecord`, `addGlucoseRecord`, `addBloodPressureRecord`, `addFoodRecord`: the record goes first. */
  function AddRecord(s: RecordsState, kind: RecordKind, row: Row): RecordsState
  {
    WithList(s, kind, [row] + List(s, kind))
  }

  function IdIsNot(id: string): Row -> bool
  {
    (r: Row) => r.id != id
  }

  /** `removeRecord`: drops every record with that id from the list of `kind`. */
  function RemoveRecord(s: RecordsState, id: string, kind: RecordKind): RecordsState
  {
    WithList(s, kind, Filter(List(s, kind), IdIsNot(id)))
  }

  /**
   * The state after assigning `rows` to the key `key`: a declared list when
   * the key names one, otherwise a key outside the interface.
   */
  function SetKey(s: RecordsState, key: string, rows: seq<Row>): RecordsState
  {
    if key == "weightRecords" then s.(weightRecords := rows)
    else if key == "glucoseRecords" then s.(glucoseRecords := rows)
    else if key == "bloodPressureRecords" then s.(bloodPressureRecords := rows)
    else if key == "foodRecords" then s.(foodRecords := rows)
    else s.(extra := s.extra[key := rows])
  }

  /** `setRecords` AS WRITTEN: assigns the key `` `${type}Records` ``. */
  function SetRecordsAsWritten(s: RecordsState, kind: RecordKind, rows: seq<Row>): RecordsState
  {
    SetKey(s, kind.Name() + "Records", rows)
  }

  /** `setRecords`, corrected: replaces the declared list of `kind`. */
  function SetRecords(s: RecordsState, kind: RecordKind, rows: seq<Row>): RecordsState
  {
    WithList(s, kind, rows)
  }

  function SetStatistics(s: RecordsState, statistics: Document): RecordsState
  {
    s.(statistics := Some(statistics))
  }

  function SetTrendAnalysis(s: RecordsState, analysis: Document): RecordsState
  {
    s.(trendAnalysis := Some(analysis))
  }

  function SetLoading(s: RecordsState, loading: bool): RecordsState
  {
    s.(isLoading := loading)
  }

  function SetError(s: RecordsState, error: Option<string>): RecordsState
  {
    s.(error := error)
  }

  /** Everything but the four declared lists. */
  predicate SameOutsideLists(r: RecordsState, s: RecordsState)
  {
    r.(weightRecords := s.weightRecords, glucoseRecords := s.glucoseRecords,
       bloodPressureRecords := s.bloodPressureRecords, foodRecords := s.foodRecords) == s
  }

  /** Adding puts the record at the front of its own list and changes nothing else. */
  lemma AddRecordFront(s: RecordsState, kind: RecordKind, row: Row)
    ensures var r := AddRecord(s, kind, row);
            && List(r, kind) == [row] + List(s, kind)
            && List(r, kind)[1..] == List(s, kind)
            && (forall k :: k != kind ==> List(r, k) == List(s, k))
            && SameOutsideLists(r, s)
  {
    assert ([row] + List(s, kind))[1..] == List(s, kind);
  }

  /**
   * Removing keeps exactly the records of the list whose id differs, in
   * order, and changes nothing else; removing an id twice is removing it
   * once, and removing an absent id changes nothing.
   */
  lemma RemoveRecordSound(s: RecordsState, id: string, kind: RecordKind)
    ensures var r := RemoveRecord(s, id, kind);
            && (forall x :: x in List(r, kind) <==> x in List(s, kind) && x.id != id)
            && Subseq(List(r, kind), List(s, kind))
            && (forall k :: k != kind ==> List(r, k) == List(s, k))
            && SameOutsideLists(r, s)
            && RemoveRecord(r, id, kind) == r
            && ((forall x :: x in List(s, kind) ==> x.id != id) ==> r == s)
  {
    var rows := List(s, kind);
    FilterSubseq(rows, IdIsNot(id));
    FilterIdempotent(rows, IdIsNot(id));
    if forall x :: x in rows ==> x.id != id {
      FilterKeepsAll(rows, IdIsNot(id));
    }
  }

  /** The corrected `setRecords` replaces its own list and changes nothing else. */
  lemma SetRecordsSound(s: RecordsState, kind: RecordKind, rows: seq<Row>)
    ensures var r := SetRecords(s, kind, rows);
            && List(r, kind) == rows
            && (forall k :: k != kind ==> List(r, k) == List(s, k))
            && SameOutsideLists(r, s)
            && SetRecords(r, kind, rows) == r
  {
  }

  /** As written, `setRecords` agrees with the corrected action for every kind but blood pressure. */
  lemma SetRecordsAsWrittenAgrees(s: RecordsState, kind: RecordKind, rows: seq<Row>)
    requires !kind.BloodPressureKind?
    ensures SetRecordsAsWritten(s, kind, rows) == SetRecords(s, kind, rows)
  {
    match kind
    case WeightKind => assert kind.Name() + "Records" == "weightRecords";
    case GlucoseKind => assert kind.Name() + "Records" == "glucoseRecords";
    case FoodKind => assert kind.Name() + "Records" == "foodRecords";
  }

  /**
   * As written, `setRecords('blood-pressure', rows)` leaves the
   * blood-pressure list alone and stores `rows` under the undeclared key
   * "blood-pressureRecords".
   */
  lemma SetRecordsAsWrittenMissesBloodPressure(s: RecordsState, rows: seq<Row>)
    ensures var r := SetRecordsAsWritten(s, BloodPressureKind, rows);
            && r.bloodPressureRecords == s.bloodPressureRecords
            && r.extra == s.extra["blood-pressureRecords" := rows]
            && (rows != s.bloodPressureRecords ==> List(r, BloodPressureKind) != rows)
  {
    var key := BloodPressureKind.Name() + "Records";
    assert key == "blood-pressureRecords";
    assert key != "weightRecords" && key != "glucoseRecords" && key != "foodRecords";
    assert key != "bloodPressureRecords" by {
      assert key[5] == '-' && "bloodPressureRecords"[5] == 'P';
    }
  }

  /** The four setters each change their own field and nothing else. */
  lemma SettersChangeOnlyTheirField(s: RecordsState, d: Document, loading: bool, error: Option<string>)
    ensures SetStatistics(s, d).(statistics := s.statistics) == s && SetStatistics(s, d).statistics == Some(d)
    ensures SetTrendAnalysis(s, d).(trendAnalysis := s.trendAnalysis) == s && SetTrendAnalysis(s, d).trendAnalysis == Some(d)
    ensures SetLoading(s, loading).(isLoading := s.isLoading) == s && SetLoading(s, loading).isLoading == loading
    ensures SetError(s, error).(error := s.error) == s && SetError(s, error).error == error
  {
  }
}
