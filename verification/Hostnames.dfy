/** Assigning host names: mac-N with N one more than the largest number in use. */
module Hostnames {
  import opened Types
  import opened Decimal

  const INT_MAX := 0x7fff_ffff

  datatype WorkerRow = WorkerRow(uuid: string, hostname: string)

  type Workers = map<WorkerId, WorkerRow>

  datatype Assigned = Hostname(name: string) | OutOfRange

  /** A host name of the form mac-N. */
  predicate Numbered(hostname: string) {
    "mac-" <= hostname && AllDigits(hostname[4..])
  }

  /** Its number; any other name counts as 0. */
  function NumberOf(hostname: string): nat {
    if Numbered(hostname) then Parse(hostname[4..]) else 0
  }

  function MacName(n: nat): string {
    "mac-" + Print(n)
  }

  lemma MacNameNumber(n: nat)
    ensures Numbered(MacName(n)) && NumberOf(MacName(n)) == n
  {
    ParsePrint(n);
    assert MacName(n)[4..] == Print(n);
  }

  ghost predicate IsMax(workers: Workers, n: nat) {
    && (forall id :: id in workers ==> NumberOf(workers[id].hostname) <= n)
    && (n == 0 || exists id :: id in workers && NumberOf(workers[id].hostname) == n)
  }

  /** COALESCE(MAX(number), 0). */
  ghost function MaxOf(workers: Workers): (n: nat)
    ensures IsMax(workers, n)
    decreases |workers|
  {
    if workers == map[] then 0 else
      var id :| id in workers;
      var others := workers - {id};
      assert others.Keys == workers.Keys - {id};
      var rest, n := MaxOf(others), NumberOf(workers[id].hostname);
      assert forall k :: k in workers ==> k == id || k in others;
      assert forall k :: k in others ==> k in workers && others[k] == workers[k];
      if n > rest then n else rest
  }

  lemma MaxUnique(workers: Workers, n: nat, m: nat)
    requires IsMax(workers, n) && IsMax(workers, m)
    ensures n == m
  {
  }

  /** hardware_uuid is UNIQUE. */
  ghost predicate UniqueUuids(workers: Workers) {
    forall a, b :: a in workers && b in workers && workers[a].uuid == workers[b].uuid ==> a == b
  }

  predicate Holds(workers: Workers, id: WorkerId, uuid: string) {
    id in workers && workers[id].uuid == uuid
  }

  ghost predicate Known(workers: Workers, uuid: string) {
    exists id :: Holds(workers, id, uuid)
  }

  /** The insert, or on a clash of worker ids the update of the other worker's name. */
  function Named(workers: Workers, id: WorkerId, uuid: string, name: string): Workers {
    workers[id := if id in workers then workers[id].(hostname := name) else WorkerRow(uuid, name)]
  }

  /** The transaction: a known uuid keeps its name, a new one gets the next number, if that fits 32 bits. */
  ghost function Assign(workers: Workers, idOf: string -> WorkerId, uuid: string): (Workers, Assigned) {
    if Known(workers, uuid) then
      var id :| Holds(workers, id, uuid);
      (workers, Hostname(workers[id].hostname))
    else if MaxOf(workers) >= INT_MAX then
      (workers, OutOfRange)
    else
      var name := MacName(MaxOf(workers) + 1);
      (Named(workers, idOf(uuid), uuid, name), Hostname(name))
  }

  lemma NamedKeepsUuids(workers: Workers, id: WorkerId, uuid: string, name: string)
    requires UniqueUuids(workers) && !Known(workers, uuid)
    ensures UniqueUuids(Named(workers, id, uuid, name))
  {
    forall a | a in workers ensures workers[a].uuid != uuid {
      assert !Holds(workers, a, uuid);
    }
  }

  class WorkersTable {
    var rows: Workers
    const idOf: string -> WorkerId

    constructor (idOf: string -> WorkerId)
      ensures rows == map[] && this.idOf == idOf
    {
      rows, this.idOf := map[], idOf;
    }

    /** The row with this uuid, if any. */
    method FindByUuid(uuid: string) returns (found: Option<WorkerId>)
      ensures found.Some? ==> Holds(rows, found.value, uuid)
      ensures found.None? ==> !Known(rows, uuid)
    {
      if id :| id in rows && rows[id].uuid == uuid {
        return Some(id);
      }
      return None;
    }

    /** The largest number in use; a name whose number does not fit a 32-bit integer fails the whole query. */
    method MaxNumber() returns (max: nat, ok: bool)
      ensures ok ==> IsMax(rows, max)
      ensures ok <==> MaxOf(rows) <= INT_MAX
    {
      max := 0;
      var todo := rows.Keys;
      while todo != {}
        invariant todo <= rows.Keys && max <= INT_MAX
        invariant forall id :: id in rows && id !in todo ==> NumberOf(rows[id].hostname) <= max
        invariant max == 0 || exists id :: id in rows && NumberOf(rows[id].hostname) == max
        decreases todo
      {
        var id :| id in todo;
        var n := NumberOf(rows[id].hostname);
        if n > INT_MAX {
          return 0, false;
        }
        if n > max {
          max := n;
        }
        todo := todo - {id};
      }
      return max, true;
    }

    method AssignHostname(uuid: string) returns (r: Assigned)
      requires UniqueUuids(rows)
      modifies this`rows
      ensures UniqueUuids(rows)
      ensures (rows, r) == Assign(old(rows), idOf, uuid)
      ensures forall id :: Holds(old(rows), id, uuid) ==> rows == old(rows) && r == Hostname(old(rows)[id].hostname)
    {
      var found := FindByUuid(uuid);
      if found.Some? {
        assert forall id :: Holds(rows, id, uuid) ==> id == found.value;
        return Hostname(rows[found.value].hostname);
      }
      var max, ok := MaxNumber();
      if !ok {
        return OutOfRange;
      }
      MaxUnique(rows, max, MaxOf(rows));
      if max == INT_MAX {
        return OutOfRange;
      }
      var name := MacName(max + 1);
      NamedKeepsUuids(rows, idOf(uuid), uuid, name);
      rows := Named(rows, idOf(uuid), uuid, name);
      return Hostname(name);
    }
  }

  /**
    A new uuid gets a name that no row has, leading zeros and unnumbered names included: the next number after one in
    use, or 1, so that no number is passed over. It fails exactly
    when a number in use has reached the 32-bit maximum.
  */
  lemma NewNameIsFresh(workers: Workers, idOf: string -> WorkerId, uuid: string)
    requires !Known(workers, uuid)
    ensures var (after, r) := Assign(workers, idOf, uuid);
            && (r.Hostname? <==> forall id :: id in workers ==> NumberOf(workers[id].hostname) < INT_MAX)
            && (r.Hostname? ==>
                  && Numbered(r.name)
                  && (forall id :: id in workers ==> workers[id].hostname != r.name && NumberOf(workers[id].hostname) < NumberOf(r.name))
                  && r.name == "mac-" + Print(NumberOf(r.name))
                  && (NumberOf(r.name) == 1 || exists id :: id in workers && NumberOf(r.name) == NumberOf(workers[id].hostname) + 1))
  {
    var n := MaxOf(workers);
    MacNameNumber(n + 1);
    if n >= INT_MAX {
      var id :| id in workers && NumberOf(workers[id].hostname) == n;
    }
  }

  /** Asking again gives the same name and changes nothing, exactly when the first time did not hit another worker's id. */
  lemma AskingAgain(workers: Workers, idOf: string -> WorkerId, uuid: string)
    requires UniqueUuids(workers) && Assign(workers, idOf, uuid).1.Hostname?
    ensures var (after, r) := Assign(workers, idOf, uuid);
            Assign(after, idOf, uuid) == (after, r) <==> Known(workers, uuid) || idOf(uuid) !in workers
  {
    var (after, r) := Assign(workers, idOf, uuid);
    if !Known(workers, uuid) {
      if idOf(uuid) !in workers {
        assert Holds(after, idOf(uuid), uuid);
        forall id | Holds(after, id, uuid) ensures id == idOf(uuid) {
          assert id != idOf(uuid) ==> Holds(workers, id, uuid);
        }
      } else {
        ClashForgetsUuid(workers, idOf, uuid);
        NewNameIsFresh(after, idOf, uuid);
        assert after[idOf(uuid)].hostname == r.name;
      }
    }
  }

  lemma ClashForgetsUuid(workers: Workers, idOf: string -> WorkerId, uuid: string)
    requires !Known(workers, uuid) && idOf(uuid) in workers
    ensures !Known(Assign(workers, idOf, uuid).0, uuid)
  {
    var after := Assign(workers, idOf, uuid).0;
    forall id | id in after ensures after[id].uuid != uuid {
      assert !Holds(workers, id, uuid);
    }
  }

  // Runs of assignments.

  ghost function AssignAll(idOf: string -> WorkerId, uuids: seq<string>): (Workers, seq<Assigned>) {
    if uuids == [] then (map[], []) else
      var n := |uuids| - 1;
      var (workers, names) := AssignAll(idOf, uuids[..n]);
      var (after, r) := Assign(workers, idOf, uuids[n]);
      (after, names + [r])
  }

  /** No two of these uuids share a worker id. */
  ghost predicate IdsDiffer(idOf: string -> WorkerId, uuids: seq<string>) {
    forall i, j :: 0 <= i < j < |uuids| && idOf(uuids[i]) == idOf(uuids[j]) ==> uuids[i] == uuids[j]
  }

  ghost predicate NamesDiffer(workers: Workers) {
    forall a, b :: a in workers && b in workers && workers[a].hostname == workers[b].hostname ==> a == b
  }

  /** Every row belongs to one of the uuids, under its own id. */
  ghost predicate RowsFrom(workers: Workers, idOf: string -> WorkerId, uuids: seq<string>) {
    forall id :: id in workers ==> workers[id].uuid in uuids && idOf(workers[id].uuid) == id
  }

  ghost predicate Recorded(workers: Workers, idOf: string -> WorkerId, uuid: string, r: Assigned) {
    r.Hostname? ==> idOf(uuid) in workers && workers[idOf(uuid)] == WorkerRow(uuid, r.name)
  }

  lemma AssignKeepsRows(workers: Workers, idOf: string -> WorkerId, uuids: seq<string>, uuid: string)
    requires IdsDiffer(idOf, uuids + [uuid]) && RowsFrom(workers, idOf, uuids) && NamesDiffer(workers)
    ensures var (after, r) := Assign(workers, idOf, uuid);
            && RowsFrom(after, idOf, uuids + [uuid]) && NamesDiffer(after) && Recorded(after, idOf, uuid, r)
            && forall id :: id in workers ==> id in after && after[id] == workers[id]
  {
    if !Known(workers, uuid) {
      NewNameIsFresh(workers, idOf, uuid);
      OwnIdOnly(workers, idOf, uuids, uuid);
    }
  }

  lemma OwnIdOnly(workers: Workers, idOf: string -> WorkerId, uuids: seq<string>, uuid: string)
    requires IdsDiffer(idOf, uuids + [uuid]) && RowsFrom(workers, idOf, uuids)
    ensures idOf(uuid) in workers ==> Holds(workers, idOf(uuid), uuid)
  {
    if idOf(uuid) in workers {
      var other := workers[idOf(uuid)].uuid;
      var k :| 0 <= k < |uuids| && uuids[k] == other;
      assert (uuids + [uuid])[k] == other && (uuids + [uuid])[|uuids|] == uuid;
    }
  }

  lemma {:induction false} AllRecorded(idOf: string -> WorkerId, uuids: seq<string>)
    requires IdsDiffer(idOf, uuids)
    ensures var (workers, names) := AssignAll(idOf, uuids);
            && |names| == |uuids|
            && RowsFrom(workers, idOf, uuids) && NamesDiffer(workers)
            && forall i :: 0 <= i < |uuids| ==> Recorded(workers, idOf, uuids[i], names[i])
  {
    if uuids != [] {
      var n := |uuids| - 1;
      AllRecorded(idOf, uuids[..n]);
      assert uuids[..n] + [uuids[n]] == uuids;
      AssignKeepsRows(AssignAll(idOf, uuids[..n]).0, idOf, uuids[..n], uuids[n]);
    }
  }

  /** Over any run of assignments, two answers are the same name exactly when the same uuid asked. */
  lemma AssignmentsAreInjective(idOf: string -> WorkerId, uuids: seq<string>, i: nat, j: nat)
    requires IdsDiffer(idOf, uuids) && i < |uuids| && j < |uuids|
    ensures var names := AssignAll(idOf, uuids).1;
            && |names| == |uuids|
            && (names[i].Hostname? && names[j].Hostname? ==> (names[i] == names[j] <==> uuids[i] == uuids[j]))
  {
    AllRecorded(idOf, uuids);
  }
}
