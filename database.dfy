/**
 * The SurrealDB client, abstracted as a map from record ids to records plus an
 * oracle that decides which calls fail in transport. `Db` is the state as a value;
 * the class `Store` holds it and updates it in place, as the client does.
 */
module Database {
  import opened Wrappers
  import opened Tables

  datatype Content = EntityContent(entity: EntityMini) | ClaimsContent(claims: Claims)

  /** A stored record; `None` when it was created without content. */
  datatype Record = Record(content: Option<Content>)

  const Empty: Record := Record(None)

  type Rows = map<Thing, Record>

  /**
   * `faults[i]` is true when the i-th store call from now on fails in transport
   * (a dropped session, a timeout). A failed call never reached the store: it changes
   * no record. Once the sequence runs out, every call reaches the store.
   */
  datatype Db = Db(rows: Rows, faults: seq<bool>)

  /** The state after one store call and whether the call returned `Ok`. */
  datatype Reply = Reply(db: Db, ok: bool)

  predicate FaultNext(db: Db)
  {
    db.faults != [] && db.faults[0]
  }

  function RestFaults(db: Db): seq<bool>
  {
    if db.faults == [] then [] else db.faults[1..]
  }

  /** `create(&id)` without content: an error when the transport fails or the id is taken. */
  function CreateSpec(db: Db, id: Thing): Reply
  {
    if FaultNext(db) || id in db.rows then Reply(Db(db.rows, RestFaults(db)), false)
    else Reply(Db(db.rows[id := Empty], RestFaults(db)), true)
  }

  /** `update(&id).content(c)`: replaces the record's content, whether or not the id was present. */
  function UpdateSpec(db: Db, id: Thing, c: Content): Reply
  {
    if FaultNext(db) then Reply(Db(db.rows, RestFaults(db)), false)
    else Reply(Db(db.rows[id := Record(Some(c))], RestFaults(db)), true)
  }

  /** The store handle. */
  class Store {
    var rows: Rows
    var faults: seq<bool>

    function State(): Db
      reads this
    {
      Db(rows, faults)
    }

    constructor (init: Db)
      ensures State() == init
    {
      rows := init.rows;
      faults := init.faults;
    }

    method Create(id: Thing) returns (ok: bool)
      modifies this
      ensures State() == CreateSpec(old(State()), id).db
      ensures ok == CreateSpec(old(State()), id).ok
      ensures ok <==> !FaultNext(old(State())) && id !in old(rows)
      ensures forall k :: k in old(rows) ==> k in rows && rows[k] == old(rows)[k]
    {
      var fault := faults != [] && faults[0];
      faults := if faults == [] then [] else faults[1..];
      if fault || id in rows {
        ok := false;
      } else {
        rows := rows[id := Empty];
        ok := true;
      }
    }

    method Update(id: Thing, c: Content) returns (ok: bool)
      modifies this
      ensures State() == UpdateSpec(old(State()), id, c).db
      ensures ok == UpdateSpec(old(State()), id, c).ok
      ensures ok <==> !FaultNext(old(State()))
      ensures ok ==> id in rows && rows[id] == Record(Some(c))
    {
      var fault := faults != [] && faults[0];
      faults := if faults == [] then [] else faults[1..];
      if fault {
        ok := false;
      } else {
        rows := rows[id := Record(Some(c))];
        ok := true;
      }
    }
  }
}
