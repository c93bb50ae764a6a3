# sails-mongo: the "Find (records)" read path

A Dafny model of the read path of the sails-mongo adapter, the `fn` of the
"Find (records)" machine. The machine takes a stage-3 query: a table name
(`using`) and criteria (`where`, `sort`, `limit`, `skip`, `select`). It works in five steps:

1. It resolves the registered model whose `tableName` equals `using`.
2. It reifies the where clause into a Mongo filter.
3. It translates each sort directive `{col: 'ASC'|'DESC'}` into a `[col, 1|-1]` pair.
4. It builds the cursor `find(filter).limit(limit).sort(sort)`, adds a projection when `select` is present and a skip when `skip` is non-zero.
5. It materialises the cursor with `toArray` and passes every native record through `processNativeRecord`, in place. Any failure takes the error exit for the whole call.

Files:

- `wrappers.dfy`: the `Option` and `Result` datatypes.
- `mongo_driver.dfy`: the driver as the machine sees it.
  - `Json` stands for JavaScript values.
  - `CursorOp` is one configuration call applied to a cursor.
  - The `Cursor` class holds the log of calls; its `limit`, `sort`, `project` and `skip` change the cursor in place.
  - `Store` holds two callbacks: a synchronous throw while chaining `find/limit/sort`, and the outcome of `toArray`.
- `find_records.dfy`: the machine itself.
  - Pure parts, as functions: model lookup, sort translation, the expected cursor (`Assembled`) and the result pass (`ProcessAll`).
  - Imperative parts, as methods: the projection reduce (`BuildProjection`), the in-place record loop (`ProcessRecords`) and the pipeline (`FindRecords`).
  - `FindRecords` is proved equal to the specification function `FindOutcome`. The lemmas state what `FindOutcome` promises.

Collaborators are parameters of `FindRecords`, and none of their behaviour is modelled:

- `reify` stands for `reifyWhereClause`.
- `process` stands for `processNativeRecord`.
- `store` stands for the database.

Each of them may fail with a message, and the model propagates that message.

On these points the model follows the code as written:

- The model registry is scanned in order and the first match wins: it is scanned for `tableName`, not looked up by it.
- `select` only has to be present: an empty select list still attaches an empty projection, because `[]` is truthy in JavaScript.
- `limit` is applied unconditionally, with whatever value the query carries.
- The sort-direction `assert` sits outside any `try`. A bad token therefore throws out of `fn`, and the machine runner reports a throw as the error exit. It happens after the where clause has been reified and before any cursor is built.

## Model

| member | source | states |
|---|---|---|
| `FindRecords.LookupModel` | lib/private/machines/find-records.js:43-46 | no model is found iff no registered model has that `tableName`; a model found is registered and has that `tableName` |
| `FindRecords.LookupFindsFirst` | lib/private/machines/find-records.js:43 | the model found is the first one, in registry order, whose `tableName` matches |
| `FindRecords.UnregisteredTableFails` | lib/private/machines/find-records.js:43-46 | the call fails with the registry error iff no model matches `using`, and then no query is sent to the store |
| `FindRecords.MapSort` | lib/private/machines/find-records.js:65-77 | a directive maps iff its first key carries exactly `ASC` or `DESC`; the pair's key is that first key; 1 iff `ASC`, -1 iff `DESC`; any other token is the consistency violation |
| `FindRecords.DirectionRoundTrip` | lib/private/machines/find-records.js:72-74 | the direction mapping is a bijection between {`ASC`, `DESC`} and {1, -1}: token to number and back gives the token, number to token and back gives the pair |
| `FindRecords.TranslateSort` | lib/private/machines/find-records.js:65-78 | the sort translates iff every directive is valid; on success same length and each position is the mapping of the directive at that position; otherwise the consistency violation |
| `FindRecords.SortRoundTrip` | lib/private/machines/find-records.js:65-78 | every Mongo sort with directions in {1, -1} is the translation of its own one-key directives |
| `FindRecords.SortTranslationFaithful` | lib/private/machines/find-records.js:69-74 | written back as directives, the translated sort has at each position exactly the first key and token of the original directive |
| `FindRecords.BadSortDirectionFails` | lib/private/machines/find-records.js:73 | once the model resolves and the where clause reifies, one invalid directive anywhere makes the call fail with the consistency violation, with no query sent |
| `FindRecords.Projection` | lib/private/machines/find-records.js:90-93 | the projection's keys are exactly the selected column names, each mapped to 1 |
| `FindRecords.BuildProjection` | lib/private/machines/find-records.js:90-93 | the `memo` map filled column by column ends as the projection of the select list |
| `FindRecords.ProjectionIgnoresOrder` | lib/private/machines/find-records.js:90-93 | two select lists with the same columns give the same projection, whatever the order or repetition |
| `FindRecords.Assembled` | lib/private/machines/find-records.js:82-101 | the cursor begins `Find(filter)`, `Limit(limit)`, `Sort(pairs)`; after that only Project and Skip, Project before Skip; Project present iff `select` is, with the projection of `select`; Skip present iff `skip` is non-zero, with that value |
| `FindRecords.SkipZeroIsAbsent` | lib/private/machines/find-records.js:97-101 | a skip of 0 assembles the same cursor as an absent skip |
| `FindRecords.QuerySentOnlyWhenAssembled` | lib/private/machines/find-records.js:57-101 | a query reaches `toArray` iff the model resolves, the where clause reifies, the sort is valid and the find/limit/sort chain does not throw; the query sent is then the assembled cursor |
| `FindRecords.ProcessAll` | lib/private/machines/find-records.js:115-120 | succeeds iff every native record processes; then same length and each output is the processed record at the same index; otherwise the failure names the first failing index and its error |
| `FindRecords.ProcessRecords` | lib/private/machines/find-records.js:116-120 | rewrites the array in place to the processed records, or stops at the first failure with the earlier records rewritten and the later ones untouched |
| `FindRecords.SuccessIsProcessedNativeResult` | lib/private/machines/find-records.js:108-122 | the call succeeds iff a query was sent, `toArray` delivered records and all of them processed; the records returned are the processed native records in native order |
| `FindRecords.NoMatchesIsEmptySuccess` | lib/private/machines/find-records.js:108-122 | zero native records give a success with zero records |
| `FindRecords.FindRecords` | lib/private/machines/find-records.js:28-125 | the imperative pipeline's outcome and the cursor it sends equal those of the step-by-step specification `FindOutcome` |
| `MongoDriver.Cursor.constructor` | lib/private/machines/find-records.js:55-82 | `db.collection(tableName).find(filter)` gives a cursor on that collection whose log is `[Find(filter)]`; `db.collection` is line 55, `find` is line 82 |
| `MongoDriver.Cursor.Limit` | lib/private/machines/find-records.js:82 | appends `Limit(n)` to the cursor's log |
| `MongoDriver.Cursor.Sort` | lib/private/machines/find-records.js:82 | appends `Sort(pairs)` to the cursor's log |
| `MongoDriver.Cursor.Project` | lib/private/machines/find-records.js:94 | appends `Project(fields)` to the cursor's log |
| `MongoDriver.Cursor.Skip` | lib/private/machines/find-records.js:100 | appends `Skip(n)` to the cursor's log, in place, as the discarded return value of `skip` requires |

## Left out

- The MongoDB driver. The live cursor and the asynchronous `toArray` callback are network I/O. They become `Store`: a possible synchronous throw from the find/limit/sort chain, and the `toArray` outcome (the records in store order, or an error), both functions of the collection and the cursor log. `db.collection` becomes the `Cursor` constructor, which cannot fail (see below).
- `reifyWhereClause` and `processNativeRecord`. Their code is not part of this model. They are function parameters that either return a value or throw a message. The where-clause grammar, operator tables and ObjectId/date conversions are therefore not modelled, and neither is idempotence of record processing.
- The `machine` wrapper: the input and exit declarations (lines 1-26) and the runner that turns a throw into the error exit.
- The wording of error messages. `FindError` records only which step failed and the value that step threw.
- Throws from `project` or `skip`. These calls sit outside any `try` in the code, and the model treats them as never throwing.
- `db.collection` (line 55) is treated as never throwing. The model opens the collection together with `find`, after sort translation; a throw there would come before the where clause is reified, and the model cannot report it.
- FindRecords.ProcessRecords: leaves the failing record unchanged, whereas `processNativeRecord` rewrites in place and may leave that record half rewritten. The difference is unobservable, because the error exit drops the array.
- JavaScript value details. Direction tokens are strings: a non-string token (a number, say) is represented by any string other than `ASC`/`DESC`, and behaves the same way. A `skip` of `NaN` is not modelled. A directive's keys are taken in the order `_.keys` returns them.
- Concurrency between invocations. Each call is independent and shares no state.
