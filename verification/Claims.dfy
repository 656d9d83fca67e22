/** Claiming a workstation: read the schedulable workers and the taken slots, select, insert. */
module Claims {
  import opened Types
  import opened Allocator
  import opened AllocatorRuns
  import T = Table

  datatype ClaimResult = Claimed(row: Row) | NoActiveWorkers | Refused(selection: Selection) | Conflict

  /** The (worker, slot) pairs of a table. */
  function PlacementsOf(rows: T.Rows): set<Placement> {
    set id | id in rows :: Placement(rows[id].worker, rows[id].slot)
  }

  /** SELECT worker_id, slot: one pair per row, in some order. */
  method ScanPlacements(rows: T.Rows) returns (list: seq<Placement>)
    ensures forall p :: p in list <==> p in PlacementsOf(rows)
  {
    list := [];
    var todo := rows.Keys;
    while todo != {}
      invariant todo <= rows.Keys
      invariant forall p :: p in list <==> exists id :: id in rows && id !in todo && p == Placement(rows[id].worker, rows[id].slot)
      decreases todo
    {
      var id :| id in todo;
      list := list + [Placement(rows[id].worker, rows[id].slot)];
      todo := todo - {id};
    }
  }

  /** The new row of a claim. */
  function NewRow(member: MemberId, id: WorkstationId, c: Candidate): Row {
    Row(member, c.worker, c.slot, T.VMNameOf(id), Power.Starting, Desired.Running)
  }

  /** The row of a claim, field by field: the member's, at the selected placement, starting and to be run. */
  predicate InsertedAt(row: Row, member: MemberId, id: WorkstationId, c: Candidate) {
    && row.member == member && row.worker == c.worker && row.slot == c.slot && row.vmName == T.VMNameOf(id)
    && row.power == Power.Starting && row.desired == Desired.Running
  }

  /** What a claim may answer on this table. */
  ghost predicate ClaimAnswers(rows: T.Rows, workers: seq<Worker>, preferred: WorkerId, outcome: Selection) {
    exists existing: SlotMap :: Agrees(existing, PlacementsOf(rows)) && Selects(workers, existing, preferred, outcome)
  }

  /** The primary key or the VM name of a new row is in use. */
  predicate InUse(rows: T.Rows, id: WorkstationId) {
    id in rows || exists k :: k in rows && rows[k].vmName == T.VMNameOf(id)
  }

  /** The transaction; `id` is the new random id. A claim that fails changes nothing. */
  method ClaimWorkstation(table: T.WorkstationTable, workers: seq<Worker>, member: MemberId, preferred: WorkerId, id: WorkstationId)
    returns (r: ClaimResult)
    modifies table
    ensures r.NoActiveWorkers? <==> workers == []
    ensures r.Conflict? ==> InUse(old(table.rows), id)
    ensures r.Refused? ==> !r.selection.Chosen? && ClaimAnswers(old(table.rows), workers, preferred, r.selection)
    ensures !r.Claimed? ==> table.rows == old(table.rows)
    ensures r.Claimed? ==>
      && !InUse(old(table.rows), id) && table.rows == old(table.rows)[id := r.row]
      && exists c: Candidate :: InsertedAt(r.row, member, id, c) && ClaimAnswers(old(table.rows), workers, preferred, Chosen(c))
    ensures r.Claimed? ==> Placement(r.row.worker, r.row.slot) !in PlacementsOf(old(table.rows))
    ensures r.Claimed? ==> exists w :: w in workers && w.id == r.row.worker && 0 <= r.row.slot < w.poolSize
    ensures T.SlotsUnique(old(table.rows)) ==> T.SlotsUnique(table.rows)
  {
    if workers == [] {
      return NoActiveWorkers;
    }
    var list := ScanPlacements(table.rows);
    var existing := ListAllocatedSlots(list);
    assert (set p | p in list) == PlacementsOf(table.rows);
    var selection := SelectCandidate(workers, existing, preferred);
    if !selection.Chosen? {
      return Refused(selection);
    }
    if InUse(table.rows, id) {
      return Conflict;
    }
    var row := NewRow(member, id, selection.candidate);
    ChosenIsFree(table.rows, workers, existing, preferred, selection.candidate);
    table.rows := table.rows[id := row];
    return Claimed(row);
  }

  /** The selected placement is free, and inside the pool of a listed worker. */
  lemma ChosenIsFree(rows: T.Rows, workers: seq<Worker>, existing: SlotMap, preferred: WorkerId, c: Candidate)
    requires Agrees(existing, PlacementsOf(rows)) && Selects(workers, existing, preferred, Chosen(c))
    ensures Placement(c.worker, c.slot) !in PlacementsOf(rows)
    ensures exists w :: w in workers && w.id == c.worker && 0 <= c.slot < w.poolSize
  {
    SlotsOfMembers(PlacementsOf(rows), c.worker);
    assert Occupied(existing, c.worker) == SlotsOf(PlacementsOf(rows), c.worker);
    var w :| w in workers && Offers(w, existing, c);
  }

  /** What a claim answers is determined by the table and by which workers are schedulable. */
  lemma ClaimIsDetermined(rows: T.Rows, workers: seq<Worker>, workers': seq<Worker>, preferred: WorkerId, r: Selection, r': Selection)
    requires forall w :: w in workers <==> w in workers'
    requires preferred != "" ==> DistinctIds(workers) && DistinctIds(workers')
    requires ClaimAnswers(rows, workers, preferred, r) && ClaimAnswers(rows, workers', preferred, r')
    ensures r == r'
  {
    var e: SlotMap :| Agrees(e, PlacementsOf(rows)) && Selects(workers, e, preferred, r);
    var e': SlotMap :| Agrees(e', PlacementsOf(rows)) && Selects(workers', e', preferred, r');
    SelectsSame(workers', e', e, preferred, r');
    SelectionOrderIrrelevant(workers, workers', e, preferred, r, r');
  }

  lemma SelectsSame(workers: seq<Worker>, e: SlotMap, e': SlotMap, preferred: WorkerId, r: Selection)
    requires forall w: WorkerId :: Occupied(e, w) == Occupied(e', w)
    requires Selects(workers, e, preferred, r)
    ensures Selects(workers, e', preferred, r)
  {
    if r.Chosen? {
      forall w | w in workers && Offers(w, e, r.candidate) ensures Offers(w, e', r.candidate) {
      }
    }
  }
}
