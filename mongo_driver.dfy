/**
 * An abstraction of the MongoDB driver as seen by the find machine: plain
 * JavaScript values, the cursor as a log of the configuration calls applied
 * to it, and the store as two callbacks whose behaviour is not modelled.
 */
module MongoDriver {
  import opened Wrappers

  /** A JavaScript value as it is passed to and from the driver. */
  datatype Json =
    | JNull
    | JBool(b: bool)
    | JNumber(n: int)
    | JString(s: string)
    | JArray(items: seq<Json>)
    | JObject(fields: seq<(string, Json)>)

  /** One `[column, direction]` entry of a Mongo sort. */
  type SortPair = (string, int)

  /** A configuration call applied to a Mongo cursor, in the order applied. */
  datatype CursorOp =
    | Find(filter: Json)
    | Limit(count: nat)
    | Sort(pairs: seq<SortPair>)
    | Project(fields: map<string, int>)
    | Skip(count: nat)

  /**
   * The cursor returned by `collection.find(filter)`. Its `limit`, `sort`,
   * `project` and `skip` calls configure the cursor in place (and return it),
   * so the cursor is an object whose op log grows by one entry per call.
   */
  class Cursor {
    const collection: string
    var ops: seq<CursorOp>

    /** `db.collection(collection).find(filter)` */
    constructor (collection: string, filter: Json)
      ensures this.collection == collection
      ensures ops == [Find(filter)]
    {
      this.collection := collection;
      ops := [Find(filter)];
    }

    method Limit(count: nat)
      modifies this
      ensures ops == old(ops) + [CursorOp.Limit(count)]
    {
      ops := ops + [CursorOp.Limit(count)];
    }

    method Sort(pairs: seq<SortPair>)
      modifies this
      ensures ops == old(ops) + [CursorOp.Sort(pairs)]
    {
      ops := ops + [CursorOp.Sort(pairs)];
    }

    method Project(fields: map<string, int>)
      modifies this
      ensures ops == old(ops) + [CursorOp.Project(fields)]
    {
      ops := ops + [CursorOp.Project(fields)];
    }

    method Skip(count: nat)
      modifies this
      ensures ops == old(ops) + [CursorOp.Skip(count)]
    {
      ops := ops + [CursorOp.Skip(count)];
    }
  }

  /**
   * The database behind the connection. `chainThrows` says whether building
   * `find(...).limit(...).sort(...)` on a collection throws synchronously (and
   * with what); `toArray` is the outcome of materialising a configured cursor:
   * the raw documents in store order, or the error passed to the callback.
   */
  datatype Store = Store(
    chainThrows: (string, seq<CursorOp>) -> Option<string>,
    toArray: (string, seq<CursorOp>) -> Result<seq<Json>, string>)
}
