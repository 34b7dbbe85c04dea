/**
 * The employee directory behind the REST routes of the Node.js microservice:
 * a dictionary from id strings to whatever JSON record was loaded or PUT there,
 * with the three handlers GET /employees, GET /employees/:empId and
 * PUT /employees/:empId.
 *
 * The first half states the directory's behaviour on plain maps (Find, Stored,
 * Replay and the lemmas about them); the class Directory at the end holds the
 * dictionary as a mutable field and is proved against those functions.
 */
module Emps {
  import opened Wrappers
  import Json

  /** The dictionary `emps.employees`: id string to stored record, of any shape. */
  type Employees = map<string, Json.Value>

  /** One PUT /employees/:empId request: the URL id and the parsed body. */
  datatype PutRequest = PutRequest(id: string, body: Json.Value)

  // ---------------------------------------------------------------------------
  // Get by id
  // ---------------------------------------------------------------------------

  /**
   * What GET /employees/:empId answers: the stored record when there is one and it
   * passes the handler's truthiness test, otherwise None (the handler calls next(),
   * and the framework's default not-found response follows).
   */
  function Find(m: Employees, id: string): (r: Option<Json.Value>)
    ensures r.Some? <==> id in m && Json.Truthy(m[id])
    ensures r.Some? ==> r.value == m[id]
  {
    if id in m && Json.Truthy(m[id]) then Some(m[id]) else None
  }

  /** An id that is not a key of the directory is never answered with a record. */
  lemma AbsentIsNotFound(m: Employees, id: string)
    requires id !in m
    ensures Find(m, id) == None
  {
  }

  /** A stored object record is answered unchanged. */
  lemma StoredObjectIsFound(m: Employees, id: string)
    requires id in m && m[id].Obj?
    ensures Find(m, id) == Some(m[id])
  {
  }

  // ---------------------------------------------------------------------------
  // Put (unconditional upsert)
  // ---------------------------------------------------------------------------

  /**
   * The directory after `emps.employees[empId] = emp`: the key is added if it was
   * new, its record is replaced by the body, every other key keeps its record.
   * Nothing about the body is checked; in particular its employeeId field need not
   * equal the id.
   */
  function Stored(m: Employees, id: string, body: Json.Value): (m': Employees)
    ensures m'.Keys == m.Keys + {id}
    ensures id in m' && m'[id] == body
    ensures forall k :: k in m && k != id ==> m'[k] == m[k]
    ensures |m'| == if id in m then |m| else |m| + 1
  {
    m[id := body]
  }

  /** Get after put: a truthy body is found under its key; a falsy one is stored but declined. */
  lemma FindAfterStored(m: Employees, id: string, body: Json.Value)
    ensures Find(Stored(m, id, body), id) == if Json.Truthy(body) then Some(body) else None
  {
  }

  /** A put leaves the answer for every other id as it was. */
  lemma FindOtherAfterStored(m: Employees, id: string, body: Json.Value, other: string)
    requires other != id
    ensures Find(Stored(m, id, body), other) == Find(m, other)
  {
  }

  /** Repeating the same put changes nothing more. */
  lemma StoredIdempotent(m: Employees, id: string, body: Json.Value)
    ensures Stored(Stored(m, id, body), id, body) == Stored(m, id, body)
  {
  }

  /** Of two puts on the same id, the second one wins outright. */
  lemma StoredOverwrites(m: Employees, id: string, first: Json.Value, second: Json.Value)
    ensures Stored(Stored(m, id, first), id, second) == Stored(m, id, second)
  {
  }

  /** Puts on different ids do not interfere: their order does not matter. */
  lemma StoredCommutes(m: Employees, a: string, x: Json.Value, b: string, y: Json.Value)
    requires a != b
    ensures Stored(Stored(m, a, x), b, y) == Stored(Stored(m, b, y), a, x)
  {
    assert m[a := x][b := y] == m[b := y][a := x];
  }

  /** A put whose body names a different employeeId is accepted and found under the URL id. */
  lemma MismatchedEmployeeIdAccepted(m: Employees, id: string, fields: map<string, Json.Value>)
    requires "employeeId" in fields && fields["employeeId"] != Json.Str(id)
    ensures Find(Stored(m, id, Json.Obj(fields)), id) == Some(Json.Obj(fields))
  {
  }

  // ---------------------------------------------------------------------------
  // A run of puts
  // ---------------------------------------------------------------------------

  /** The directory after handling the given PUT requests in order, starting from m. */
  function Replay(m: Employees, puts: seq<PutRequest>): (m': Employees)
    ensures m.Keys <= m'.Keys
    decreases |puts|
  {
    if puts == [] then m else Replay(Stored(m, puts[0].id, puts[0].body), puts[1..])
  }

  /** Handling one more request is one more Stored on the directory reached so far. */
  lemma {:induction false} ReplayStep(m: Employees, puts: seq<PutRequest>, p: PutRequest)
    ensures Replay(m, puts + [p]) == Stored(Replay(m, puts), p.id, p.body)
    decreases |puts|
  {
    if puts != [] {
      assert (puts + [p])[1..] == puts[1..] + [p];
      ReplayStep(Stored(m, puts[0].id, puts[0].body), puts[1..], p);
    }
  }

  /** An id that no request in the run targets keeps its record, or stays absent. */
  lemma {:induction false} ReplayUntouched(m: Employees, puts: seq<PutRequest>, k: string)
    requires forall i :: 0 <= i < |puts| ==> puts[i].id != k
    ensures k in Replay(m, puts) <==> k in m
    ensures k in m ==> Replay(m, puts)[k] == m[k]
    decreases |puts|
  {
    if puts != [] {
      ReplayUntouched(Stored(m, puts[0].id, puts[0].body), puts[1..], k);
    }
  }

  /** Last write wins: after a run, an id holds the body of the last request that targeted it. */
  lemma {:induction false} ReplayLastWriteWins(m: Employees, puts: seq<PutRequest>, j: nat)
    requires j < |puts|
    requires forall i :: j < i < |puts| ==> puts[i].id != puts[j].id
    ensures puts[j].id in Replay(m, puts)
    ensures Replay(m, puts)[puts[j].id] == puts[j].body
    decreases |puts|
  {
    var next := Stored(m, puts[0].id, puts[0].body);
    if j == 0 {
      ReplayUntouched(next, puts[1..], puts[0].id);
    } else {
      ReplayLastWriteWins(next, puts[1..], j - 1);
    }
  }

  /** An id absent from the loaded file and never PUT is still not found after the run. */
  lemma NeverStoredNotFound(m: Employees, puts: seq<PutRequest>, k: string)
    requires k !in m
    requires forall i :: 0 <= i < |puts| ==> puts[i].id != k
    ensures Find(Replay(m, puts), k) == None
  {
    ReplayUntouched(m, puts, k);
  }

  // ---------------------------------------------------------------------------
  // Listing
  // ---------------------------------------------------------------------------

  /** `order` names every key of the directory exactly once, in some order (Object.keys). */
  ghost predicate IsKeyOrder(order: seq<string>, keys: set<string>)
  {
    && (forall i, j :: 0 <= i < j < |order| ==> order[i] != order[j])
    && (forall k :: k in keys <==> k in order)
  }

  /** `r` holds, position by position, the record stored under the key `order` names there. */
  ghost predicate ListsEach(r: seq<Json.Value>, order: seq<string>, m: Employees)
  {
    && |r| == |order|
    && forall i :: 0 <= i < |r| ==> order[i] in m && r[i] == m[order[i]]
  }

  /** A duplicate-free enumeration of a key set is exactly as long as the set is large. */
  lemma {:induction false} KeyOrderLength(order: seq<string>, keys: set<string>)
    requires IsKeyOrder(order, keys)
    ensures |order| == |keys|
    decreases |order|
  {
    if order == [] {
      assert forall k :: k !in keys;
      assert keys == {};
    } else {
      var n := |order| - 1;
      var last := order[n];
      var front := order[..n];
      assert forall k :: k in front <==> k in order && k != last by {
        forall k | k in front ensures k != last {
          var i :| 0 <= i < n && front[i] == k;
          assert order[i] == k;
        }
        forall k | k in order && k != last ensures k in front {
          var i :| 0 <= i < |order| && order[i] == k;
          assert i < n && front[i] == k;
        }
      }
      assert IsKeyOrder(front, keys - {last});
      KeyOrderLength(front, keys - {last});
    }
  }

  /**
   * A listing holds one element per key: every stored record appears in it, every
   * element is a stored record, and its length is the number of keys.
   */
  lemma ListingIsComplete(r: seq<Json.Value>, order: seq<string>, m: Employees)
    requires IsKeyOrder(order, m.Keys) && ListsEach(r, order, m)
    ensures |r| == |m|
    ensures forall k :: k in m ==> exists i :: 0 <= i < |r| && order[i] == k && r[i] == m[k]
    ensures forall i :: 0 <= i < |r| ==> exists k :: k in m && r[i] == m[k]
  {
    KeyOrderLength(order, m.Keys);
    forall k | k in m
      ensures exists i :: 0 <= i < |r| && order[i] == k && r[i] == m[k]
    {
      var i :| 0 <= i < |order| && order[i] == k;
      assert r[i] == m[k];
    }
  }

  // ---------------------------------------------------------------------------
  // The directory object
  // ---------------------------------------------------------------------------

  /** The process-wide directory the three route handlers share. */
  class Directory {
    var employees: Employees

    /** The directory as loaded at startup; the file read and JSON parse are the caller's. */
    constructor (seed: Employees)
      ensures employees == seed
    {
      employees := seed;
    }

    /**
     * GET /employees: one element per key, each the record stored under that key.
     * The order of keys is chosen here arbitrarily, as Object.keys leaves it to the
     * engine; the contract says only that some duplicate-free order of all keys is used.
     */
    method List() returns (r: seq<Json.Value>)
      ensures exists order :: IsKeyOrder(order, employees.Keys) && ListsEach(r, order, employees)
      ensures |r| == |employees|
    {
      var rest := employees.Keys;
      ghost var order: seq<string> := [];
      r := [];
      while rest != {}
        invariant rest <= employees.Keys
        invariant forall k :: k in employees <==> k in rest || k in order
        invariant forall k :: k in rest ==> k !in order
        invariant forall i, j :: 0 <= i < j < |order| ==> order[i] != order[j]
        invariant ListsEach(r, order, employees)
        decreases rest
      {
        var k :| k in rest;
        order := order + [k];
        r := r + [employees[k]];
        rest := rest - {k};
      }
      assert IsKeyOrder(order, employees.Keys);
      KeyOrderLength(order, employees.Keys);
    }

    /** GET /employees/:empId: the stored record, or None where the handler calls next(). */
    function Get(id: string): (r: Option<Json.Value>)
      reads this
      ensures r.Some? <==> id in employees && Json.Truthy(employees[id])
      ensures r.Some? ==> r.value == employees[id]
    {
      Find(employees, id)
    }

    /**
     * PUT /employees/:empId: store the body under the id, whatever its shape, and
     * answer with that same body.
     */
    method Put(id: string, body: Json.Value) returns (echo: Json.Value)
      modifies this
      ensures employees == Stored(old(employees), id, body)
      ensures echo == body
      ensures Get(id) == if Json.Truthy(body) then Some(body) else None
      ensures forall k :: k != id ==> Get(k) == old(Get(k))
    {
      employees := employees[id := body];
      echo := body;
    }
  }

  /** The seeded scenario: one employee loaded, listed, fetched, missed, then replaced. */
  method Scenario()
  {
    var jane := Json.Obj(map["employeeId" := Json.Num(100.0), "firstName" := Json.Str("Jane"),
                             "lastName" := Json.Str("Doe")]);
    var janet := Json.Obj(map["employeeId" := Json.Num(100.0), "firstName" := Json.Str("Janet"),
                              "lastName" := Json.Str("Doe")]);
    var dir := new Directory(map["100" := jane]);
    var all := dir.List();
    assert all == [jane];
    assert dir.Get("100") == Some(jane);
    assert dir.Get("999") == None;
    var echo := dir.Put("100", janet);
    assert echo == janet;
    assert dir.Get("100") == Some(janet);
    all := dir.List();
    assert all == [janet];
  }
}
