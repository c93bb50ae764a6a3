/**
 * The read path of the MongoDB adapter (the `fn` of the "Find (records)"
 * machine): resolve the model, reify the where clause, translate the sort,
 * assemble the cursor, materialise it and wash every native record.
 */
module FindRecords {
  import opened Wrappers
  import opened MongoDriver

  // ---------------------------------------------------------------------
  // Data model
  // ---------------------------------------------------------------------

  /**
   * A stage-3 sort directive: the directive object's own keys, in the order
   * `_.keys` lists them, each with its value (the direction token).
   */
  datatype SortDirective = SortDirective(entries: seq<(string, string)>)

  datatype Criteria = Criteria(
    where: Json,
    sort: seq<SortDirective>,        // an absent sort maps like []
    limit: nat,
    skip: Option<nat>,               // None: `skip` is undefined
    select: Option<seq<string>>)     // None: `select` is undefined (schema: false)

  datatype StageThreeQuery = StageThreeQuery(using: string, criteria: Criteria)

  /** A registered model, as far as the find machine looks at it. */
  datatype Model = Model(identity: string, tableName: string)

  /** Which step made the whole call take its error exit, with what it threw. */
  datatype FindError =
    | NoSuchModel(tableName: string)
    | WhereFailed(whereError: string)
    | SortConsistencyViolation
    | ChainFailed(chainError: string)
    | ExecutionFailed(executionError: string)
    | RecordFailed(recordError: string)

  /** The position and error of the first native record that could not be processed. */
  datatype RecordFailure = RecordFailure(index: nat, message: string)

  /** The error exit or success exit taken, and the cursor log `toArray` ran with ([] if it never ran). */
  datatype Run = Run(outcome: Result<seq<Json>, FindError>, executed: seq<CursorOp>)

  // ---------------------------------------------------------------------
  // Model resolution
  // ---------------------------------------------------------------------

  /** `_.find(dryOrm.models, {tableName: tableName})` */
  function LookupModel(models: seq<Model>, tableName: string): (r: Option<Model>)
    ensures r.None? <==> forall i :: 0 <= i < |models| ==> models[i].tableName != tableName
    ensures r.Some? ==> r.value in models && r.value.tableName == tableName
  {
    if models == [] then None
    else if models[0].tableName == tableName then Some(models[0])
    else LookupModel(models[1..], tableName)
  }

  /** The model found is the first registered model with that table name. */
  lemma {:induction false} LookupFindsFirst(models: seq<Model>, tableName: string, k: nat)
    requires k < |models| && models[k].tableName == tableName
    requires forall j :: 0 <= j < k ==> models[j].tableName != tableName
    ensures LookupModel(models, tableName) == Some(models[k])
  {
    if k > 0 {
      LookupFindsFirst(models[1..], tableName, k - 1);
    }
  }

  // ---------------------------------------------------------------------
  // Sort translation
  // ---------------------------------------------------------------------

  predicate IsDirectionToken(token: string) {
    token == "ASC" || token == "DESC"
  }

  /** The directive's first key exists and carries exactly `ASC` or `DESC`. */
  predicate IsValidDirective(d: SortDirective) {
    |d.entries| > 0 && IsDirectionToken(d.entries[0].1)
  }

  /** `mapSort`: the first key, and the direction as a Mongo number. */
  function MapSort(d: SortDirective): (r: Result<SortPair, FindError>)
    ensures r.Ok? <==> IsValidDirective(d)
    ensures r.Err? ==> r.error == SortConsistencyViolation
    ensures r.Ok? ==> r.value.0 == d.entries[0].0
    ensures r.Ok? ==> (r.value.1 == 1 <==> d.entries[0].1 == "ASC")
    ensures r.Ok? ==> (r.value.1 == -1 <==> d.entries[0].1 == "DESC")
  {
    if |d.entries| == 0 then Err(SortConsistencyViolation)
    else
      var (sortByKey, sortDirection) := d.entries[0];
      if !IsDirectionToken(sortDirection) then Err(SortConsistencyViolation)
      else Ok((sortByKey, if sortDirection == "ASC" then 1 else -1))
  }

  /** The inverse of the direction mapping: a Mongo direction back to its token. */
  function DirectionToken(direction: int): Option<string> {
    if direction == 1 then Some("ASC")
    else if direction == -1 then Some("DESC")
    else None
  }

  /** The two directions and the two tokens correspond one to one. */
  lemma DirectionRoundTrip(d: SortDirective, key: string, direction: int)
    ensures IsValidDirective(d) ==> DirectionToken(MapSort(d).value.1) == Some(d.entries[0].1)
    ensures DirectionToken(direction).Some? ==>
      MapSort(SortDirective([(key, DirectionToken(direction).value)])) == Ok((key, direction))
  {
  }

  /** `_.map(s3q.criteria.sort, mapSort)`; the first bad directive aborts the map. */
  function TranslateSort(sort: seq<SortDirective>): (r: Result<seq<SortPair>, FindError>)
    ensures r.Ok? <==> forall i :: 0 <= i < |sort| ==> IsValidDirective(sort[i])
    ensures r.Err? ==> r.error == SortConsistencyViolation
    ensures r.Ok? ==> |r.value| == |sort|
    ensures r.Ok? ==> forall i :: 0 <= i < |sort| ==> MapSort(sort[i]) == Ok(r.value[i])
  {
    if sort == [] then Ok([])
    else
      match MapSort(sort[0])
      case Err(e) => Err(e)
      case Ok(pair) =>
        match TranslateSort(sort[1..])
        case Err(e) => Err(e)
        case Ok(rest) => Ok([pair] + rest)
  }

  /** A Mongo sort written back as stage-3 directives, one key per directive. */
  function Directives(pairs: seq<SortPair>): (r: seq<SortDirective>)
    ensures |r| == |pairs|
  {
    if pairs == [] then []
    else
      var token := if pairs[0].1 == 1 then "ASC" else "DESC";
      [SortDirective([(pairs[0].0, token)])] + Directives(pairs[1..])
  }

  /** Any Mongo sort with directions in {1, -1} is the translation of exactly its own directives. */
  lemma {:induction false} SortRoundTrip(pairs: seq<SortPair>)
    requires forall i :: 0 <= i < |pairs| ==> pairs[i].1 == 1 || pairs[i].1 == -1
    ensures TranslateSort(Directives(pairs)) == Ok(pairs)
  {
    if pairs != [] {
      var head := SortDirective([(pairs[0].0, if pairs[0].1 == 1 then "ASC" else "DESC")]);
      assert Directives(pairs) == [head] + Directives(pairs[1..]);
      SortRoundTrip(pairs[1..]);
      TranslateSortCons(head, Directives(pairs[1..]));
      assert [pairs[0]] + pairs[1..] == pairs;
    }
  }

  /** Translating a directive in front of a translatable sort puts its pair in front. */
  lemma TranslateSortCons(d: SortDirective, rest: seq<SortDirective>)
    requires MapSort(d).Ok? && TranslateSort(rest).Ok?
    ensures TranslateSort([d] + rest) == Ok([MapSort(d).value] + TranslateSort(rest).value)
  {
    assert ([d] + rest)[0] == d;
    assert ([d] + rest)[1..] == rest;
  }

  /** A translated sort keeps each directive's first key and its direction, position by position. */
  lemma SortTranslationFaithful(sort: seq<SortDirective>, i: nat)
    requires TranslateSort(sort).Ok? && i < |sort|
    ensures Directives(TranslateSort(sort).value)[i].entries == [sort[i].entries[0]]
  {
    DirectivesAt(TranslateSort(sort).value, i);
  }

  lemma {:induction false} DirectivesAt(pairs: seq<SortPair>, i: nat)
    requires i < |pairs|
    ensures Directives(pairs)[i] == SortDirective([(pairs[i].0, if pairs[i].1 == 1 then "ASC" else "DESC")])
  {
    if i > 0 {
      DirectivesAt(pairs[1..], i - 1);
    }
  }

  // ---------------------------------------------------------------------
  // Cursor assembly
  // ---------------------------------------------------------------------

  /** The Mongo projection for a select list: every listed column mapped to 1. */
  function Projection(select: seq<string>): (p: map<string, int>)
    ensures p.Keys == (set c | c in select)
    ensures forall c :: c in p ==> p[c] == 1
  {
    map c | c in select :: 1
  }

  /** `_.reduce(select, reduceProjection, {})`, filling `memo` one column at a time. */
  method BuildProjection(select: seq<string>) returns (memo: map<string, int>)
    ensures memo == Projection(select)
  {
    memo := map[];
    var i := 0;
    while i < |select|
      invariant 0 <= i <= |select|
      invariant memo.Keys == (set c | c in select[..i])
      invariant forall c :: c in memo ==> memo[c] == 1
    {
      assert select[..i + 1] == select[..i] + [select[i]];
      memo := memo[select[i] := 1];
      i := i + 1;
    }
    assert select[..i] == select;
  }

  /** The projection depends only on which columns are selected, not their order or repetition. */
  lemma ProjectionIgnoresOrder(a: seq<string>, b: seq<string>)
    requires (set c | c in a) == (set c | c in b)
    ensures Projection(a) == Projection(b)
  {
  }

  /** The cursor log after `find(where).limit(limit).sort(sort)`, the optional project and the optional skip. */
  function Assembled(filter: Json, limit: nat, pairs: seq<SortPair>,
                     select: Option<seq<string>>, skip: Option<nat>): (ops: seq<CursorOp>)
    ensures 3 <= |ops| <= 5
    ensures ops[..3] == [Find(filter), CursorOp.Limit(limit), CursorOp.Sort(pairs)]
    ensures forall i :: 3 <= i < |ops| ==> ops[i].Project? || ops[i].Skip?
    ensures forall i, j :: 3 <= i < j < |ops| ==> ops[i].Project? && ops[j].Skip?
    ensures select.Some? ==> 4 <= |ops| && ops[3].Project?
    ensures select.None? ==> forall i :: 3 <= i < |ops| ==> !ops[i].Project?
    ensures forall i :: 3 <= i < |ops| && ops[i].Project? ==>
      select.Some? && ops[i].fields.Keys == (set c | c in select.value)
    ensures forall i :: 3 <= i < |ops| && ops[i].Project? ==>
      forall c :: c in ops[i].fields ==> ops[i].fields[c] == 1
    ensures skip.Some? && skip.value != 0 ==> ops[|ops| - 1] == CursorOp.Skip(skip.value)
    ensures skip.None? || skip.value == 0 ==> forall i :: 3 <= i < |ops| ==> !ops[i].Skip?
    ensures forall i :: 3 <= i < |ops| && ops[i].Skip? ==> skip == Some(ops[i].count)
  {
    var base := [Find(filter), CursorOp.Limit(limit), CursorOp.Sort(pairs)];
    var projected := if select.Some? then base + [CursorOp.Project(Projection(select.value))] else base;
    if skip.Some? && skip.value != 0 then projected + [CursorOp.Skip(skip.value)] else projected
  }

  /** A skip of 0 assembles exactly the same cursor as an absent skip. */
  lemma SkipZeroIsAbsent(filter: Json, limit: nat, pairs: seq<SortPair>, select: Option<seq<string>>)
    ensures Assembled(filter, limit, pairs, select, Some(0)) == Assembled(filter, limit, pairs, select, None)
  {
  }

  // ---------------------------------------------------------------------
  // Result pass
  // ---------------------------------------------------------------------

  /** Every native record through `processNativeRecord`, in order; the first failure aborts the batch. */
  function ProcessAll(raw: seq<Json>, model: Model, process: (Json, Model) -> Result<Json, string>)
    : (r: Result<seq<Json>, RecordFailure>)
    ensures r.Ok? <==> forall i :: 0 <= i < |raw| ==> process(raw[i], model).Ok?
    ensures r.Ok? ==> |r.value| == |raw|
    ensures r.Ok? ==> forall i :: 0 <= i < |raw| ==> process(raw[i], model) == Ok(r.value[i])
    ensures r.Err? ==> r.error.index < |raw| && process(raw[r.error.index], model) == Err(r.error.message)
    ensures r.Err? ==> forall j :: 0 <= j < r.error.index ==> process(raw[j], model).Ok?
  {
    if raw == [] then Ok([])
    else
      match process(raw[0], model)
      case Err(e) => Err(RecordFailure(0, e))
      case Ok(record) =>
        match ProcessAll(raw[1..], model, process)
        case Err(f) => Err(RecordFailure(f.index + 1, f.message))
        case Ok(rest) => Ok([record] + rest)
  }

  /**
   * `_.each(phRecords, processNativeRecord)`: rewrites each record in place.
   * On a failure at index k, records before k are already rewritten and the
   * rest are untouched.
   */
  method ProcessRecords(records: array<Json>, model: Model, process: (Json, Model) -> Result<Json, string>)
    returns (failure: Option<RecordFailure>)
    modifies records
    ensures failure.None? <==> ProcessAll(old(records[..]), model, process).Ok?
    ensures failure.None? ==> records[..] == ProcessAll(old(records[..]), model, process).value
    ensures failure.Some? ==> failure.value == ProcessAll(old(records[..]), model, process).error
    ensures failure.Some? ==> forall j :: 0 <= j < failure.value.index ==>
      process(old(records[j]), model) == Ok(records[j])
    ensures failure.Some? ==> forall j :: failure.value.index <= j < records.Length ==>
      records[j] == old(records[j])
  {
    ghost var raw := records[..];
    var i := 0;
    while i < records.Length
      invariant 0 <= i <= records.Length
      invariant forall j :: 0 <= j < i ==> process(raw[j], model) == Ok(records[j])
      invariant forall j :: i <= j < records.Length ==> records[j] == raw[j]
    {
      match process(records[i], model)
      case Err(e) =>
        failure := Some(RecordFailure(i, e));
        return;
      case Ok(record) =>
        records[i] := record;
      i := i + 1;
    }
    failure := None;
    assert |records[..]| == |raw|;
  }

  // ---------------------------------------------------------------------
  // The whole machine
  // ---------------------------------------------------------------------

  /** What `fn` does, step by step, as a function of its inputs and collaborators. */
  ghost function FindOutcome(q: StageThreeQuery, models: seq<Model>,
                             reify: Json -> Result<Json, string>, store: Store,
                             process: (Json, Model) -> Result<Json, string>): Run
  {
    match LookupModel(models, q.using)
    case None => Run(Err(NoSuchModel(q.using)), [])
    case Some(model) =>
      match reify(q.criteria.where)
      case Err(e) => Run(Err(WhereFailed(e)), [])
      case Ok(filter) =>
        match TranslateSort(q.criteria.sort)
        case Err(e) => Run(Err(e), [])
        case Ok(pairs) =>
          var chain := [Find(filter), CursorOp.Limit(q.criteria.limit), CursorOp.Sort(pairs)];
          match store.chainThrows(q.using, chain)
          case Some(e) => Run(Err(ChainFailed(e)), [])
          case None =>
            var ops := Assembled(filter, q.criteria.limit, pairs, q.criteria.select, q.criteria.skip);
            match store.toArray(q.using, ops)
            case Err(e) => Run(Err(ExecutionFailed(e)), ops)
            case Ok(raw) =>
              match ProcessAll(raw, model, process)
              case Err(f) => Run(Err(RecordFailed(f.message)), ops)
              case Ok(records) => Run(Ok(records), ops)
  }

  /** An unregistered table name, and nothing else, gives the registry error; then no query is sent. */
  lemma UnregisteredTableFails(q: StageThreeQuery, models: seq<Model>,
                               reify: Json -> Result<Json, string>, store: Store,
                               process: (Json, Model) -> Result<Json, string>)
    ensures FindOutcome(q, models, reify, store, process).outcome == Err(NoSuchModel(q.using))
      <==> forall i :: 0 <= i < |models| ==> models[i].tableName != q.using
    ensures (forall i :: 0 <= i < |models| ==> models[i].tableName != q.using) ==>
      FindOutcome(q, models, reify, store, process).executed == []
  {
  }

  /**
   * A query reaches `toArray` exactly when the model resolves, the where
   * clause reifies, every sort directive is valid and the find/limit/sort
   * chain does not throw; the query sent is then the assembled cursor.
   */
  lemma QuerySentOnlyWhenAssembled(q: StageThreeQuery, models: seq<Model>,
                                   reify: Json -> Result<Json, string>, store: Store,
                                   process: (Json, Model) -> Result<Json, string>)
    ensures var run := FindOutcome(q, models, reify, store, process);
      run.executed != [] <==>
        LookupModel(models, q.using).Some? && reify(q.criteria.where).Ok? &&
        TranslateSort(q.criteria.sort).Ok? &&
        store.chainThrows(q.using, [Find(reify(q.criteria.where).value), CursorOp.Limit(q.criteria.limit),
                                    CursorOp.Sort(TranslateSort(q.criteria.sort).value)]).None?
    ensures var run := FindOutcome(q, models, reify, store, process);
      run.executed != [] ==>
        reify(q.criteria.where).Ok? && TranslateSort(q.criteria.sort).Ok? &&
        run.executed == Assembled(reify(q.criteria.where).value, q.criteria.limit,
                                  TranslateSort(q.criteria.sort).value, q.criteria.select, q.criteria.skip)
  {
  }

  /** A bad direction token anywhere in the sort fails the call before any query is sent. */
  lemma BadSortDirectionFails(q: StageThreeQuery, models: seq<Model>,
                              reify: Json -> Result<Json, string>, store: Store,
                              process: (Json, Model) -> Result<Json, string>, k: nat)
    requires LookupModel(models, q.using).Some? && reify(q.criteria.where).Ok?
    requires k < |q.criteria.sort| && !IsValidDirective(q.criteria.sort[k])
    ensures FindOutcome(q, models, reify, store, process) == Run(Err(SortConsistencyViolation), [])
  {
  }

  /**
   * The call succeeds exactly when a query was sent, `toArray` delivered the
   * native records and every one of them processed; the records returned are
   * then the processed native records, same length, same order.
   */
  lemma SuccessIsProcessedNativeResult(q: StageThreeQuery, models: seq<Model>,
                                       reify: Json -> Result<Json, string>, store: Store,
                                       process: (Json, Model) -> Result<Json, string>)
    ensures var run := FindOutcome(q, models, reify, store, process);
      run.outcome.Ok? <==>
        run.executed != [] && LookupModel(models, q.using).Some? &&
        store.toArray(q.using, run.executed).Ok? &&
        forall i :: 0 <= i < |store.toArray(q.using, run.executed).value| ==>
          process(store.toArray(q.using, run.executed).value[i], LookupModel(models, q.using).value).Ok?
    ensures var run := FindOutcome(q, models, reify, store, process);
      run.outcome.Ok? ==>
        LookupModel(models, q.using).Some? && store.toArray(q.using, run.executed).Ok? &&
        var raw := store.toArray(q.using, run.executed).value;
        |run.outcome.value| == |raw| &&
        forall i :: 0 <= i < |raw| ==> process(raw[i], LookupModel(models, q.using).value) == Ok(run.outcome.value[i])
  {
  }

  /** Zero matching documents is a success with no records, not an error. */
  lemma NoMatchesIsEmptySuccess(q: StageThreeQuery, models: seq<Model>,
                                reify: Json -> Result<Json, string>, store: Store,
                                process: (Json, Model) -> Result<Json, string>)
    requires FindOutcome(q, models, reify, store, process).executed != []
    requires store.toArray(q.using, FindOutcome(q, models, reify, store, process).executed) == Ok([])
    ensures FindOutcome(q, models, reify, store, process).outcome == Ok([])
  {
  }

  /** `fn`: the imperative pipeline, proved to behave as `FindOutcome`. */
  method FindRecords(q: StageThreeQuery, models: seq<Model>,
                     reify: Json -> Result<Json, string>, store: Store,
                     process: (Json, Model) -> Result<Json, string>)
    returns (outcome: Result<seq<Json>, FindError>, executed: seq<CursorOp>)
    ensures Run(outcome, executed) == FindOutcome(q, models, reify, store, process)
  {
    executed := [];
    var tableName := q.using;
    var wlModel := LookupModel(models, tableName);
    if wlModel.None? {
      outcome := Err(NoSuchModel(tableName));
      return;
    }
    var mongoWhere := reify(q.criteria.where);
    if mongoWhere.Err? {
      outcome := Err(WhereFailed(mongoWhere.error));
      return;
    }
    var mongoSort := TranslateSort(q.criteria.sort);
    if mongoSort.Err? {
      outcome := Err(mongoSort.error);
      return;
    }
    var mongoDeferred := new Cursor(tableName, mongoWhere.value);
    mongoDeferred.Limit(q.criteria.limit);
    mongoDeferred.Sort(mongoSort.value);
    assert mongoDeferred.ops == [Find(mongoWhere.value), CursorOp.Limit(q.criteria.limit), CursorOp.Sort(mongoSort.value)];
    var thrown := store.chainThrows(mongoDeferred.collection, mongoDeferred.ops);
    if thrown.Some? {
      outcome := Err(ChainFailed(thrown.value));
      return;
    }
    if q.criteria.select.Some? {
      var projection := BuildProjection(q.criteria.select.value);
      mongoDeferred.Project(projection);
    }
    if q.criteria.skip.Some? && q.criteria.skip.value != 0 {
      mongoDeferred.Skip(q.criteria.skip.value);
    }
    executed := mongoDeferred.ops;
    var nativeResult := store.toArray(mongoDeferred.collection, executed);
    if nativeResult.Err? {
      outcome := Err(ExecutionFailed(nativeResult.error));
      return;
    }
    var raw := nativeResult.value;
    var phRecords := new Json[|raw|](i requires 0 <= i < |raw| => raw[i]);
    assert phRecords[..] == raw;
    var failure := ProcessRecords(phRecords, wlModel.value, process);
    if failure.Some? {
      outcome := Err(RecordFailed(failure.value.message));
      return;
    }
    outcome := Ok(phRecords[..]);
  }
}
