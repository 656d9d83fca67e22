/**
  The slot allocator inside a claim: least-loaded worker, first free slot.
  `Selects` says which outcome is right; the methods compute it with the scans of the server.
*/
module Allocator {
  import opened Types

  /** The columns of a worker row that the allocator reads. */
  datatype Worker = Worker(id: WorkerId, poolSize: int)

  type SlotMap = map<WorkerId, set<int>>

  datatype Candidate = Candidate(worker: WorkerId, slot: int, count: int)

  datatype Selection = Chosen(candidate: Candidate) | NoSlotsAvailable | TargetWorkerFull | TargetWorkerUnavailable

  /** Looking a worker up in the nested map: an absent entry reads as no slots. */
  function Occupied(existing: SlotMap, worker: WorkerId): set<int> {
    if worker in existing then existing[worker] else {}
  }

  function Load(existing: SlotMap, worker: WorkerId): nat {
    |Occupied(existing, worker)|
  }

  predicate Free(worker: Worker, occupied: set<int>, slot: int) {
    0 <= slot < worker.poolSize && slot !in occupied
  }

  predicate Full(worker: Worker, occupied: set<int>) {
    forall slot :: 0 <= slot < worker.poolSize ==> slot in occupied
  }

  /** `slot` is the least free slot of the worker. */
  predicate FirstFree(worker: Worker, occupied: set<int>, slot: int) {
    Free(worker, occupied, slot) && forall k :: 0 <= k < slot ==> k in occupied
  }

  method FirstAvailableSlot(worker: Worker, occupied: set<int>) returns (slot: int, ok: bool)
    ensures ok ==> FirstFree(worker, occupied, slot)
    ensures !ok ==> slot == 0 && Full(worker, occupied)
  {
    slot := 0;
    while slot < worker.poolSize
      invariant 0 <= slot
      invariant forall k :: 0 <= k < slot ==> k in occupied
    {
      if slot !in occupied {
        return slot, true;
      }
      slot := slot + 1;
    }
    return 0, false;
  }

  // Order of worker ids: byte-wise, a proper prefix first.

  predicate IdLess(a: string, b: string) {
    if b == "" then false
    else if a == "" then true
    else a[0] < b[0] || (a[0] == b[0] && IdLess(a[1..], b[1..]))
  }

  lemma {:induction false} IdLessTotal(a: string, b: string)
    ensures IdLess(a, b) || a == b || IdLess(b, a)
  {
    if a != "" && b != "" && a[0] == b[0] {
      IdLessTotal(a[1..], b[1..]);
      assert a == [a[0]] + a[1..] && b == [b[0]] + b[1..];
    }
  }

  lemma {:induction false} IdLessTransitive(a: string, b: string, c: string)
    requires IdLess(a, b) && IdLess(b, c)
    ensures IdLess(a, c)
  {
    if a != "" && a[0] == b[0] && b[0] == c[0] {
      IdLessTransitive(a[1..], b[1..], c[1..]);
    }
  }

  lemma {:induction false} IdLessAsymmetric(a: string, b: string)
    requires IdLess(a, b)
    ensures !IdLess(b, a) && a != b
  {
    if a != "" && a[0] == b[0] {
      IdLessAsymmetric(a[1..], b[1..]);
    }
  }

  /** The order a claim minimises: load first, then worker id. */
  predicate Before(count: int, id: WorkerId, count': int, id': WorkerId) {
    count < count' || (count == count' && IdLess(id, id'))
  }

  predicate Offers(worker: Worker, existing: SlotMap, candidate: Candidate) {
    && candidate.worker == worker.id
    && candidate.count == Load(existing, worker.id)
    && FirstFree(worker, Occupied(existing, worker.id), candidate.slot)
  }

  /** No worker with a free slot comes before the candidate. */
  predicate Unbeaten(workers: seq<Worker>, existing: SlotMap, candidate: Candidate) {
    forall w :: w in workers && !Full(w, Occupied(existing, w.id)) ==>
      !Before(Load(existing, w.id), w.id, candidate.count, candidate.worker)
  }

  /** `i` is the first position of the list that holds the preferred id. */
  predicate FirstNamed(workers: seq<Worker>, preferred: WorkerId, i: int) {
    0 <= i < |workers| && workers[i].id == preferred && forall k :: 0 <= k < i ==> workers[k].id != preferred
  }

  /** The right outcome of a selection; an empty preference means none. */
  ghost predicate Selects(workers: seq<Worker>, existing: SlotMap, preferred: WorkerId, outcome: Selection) {
    if preferred == "" then
      match outcome
      case Chosen(c) => (exists w :: w in workers && Offers(w, existing, c)) && Unbeaten(workers, existing, c)
      case NoSlotsAvailable => forall w :: w in workers ==> Full(w, Occupied(existing, w.id))
      case _ => false
    else
      match outcome
      case Chosen(c) => exists i :: FirstNamed(workers, preferred, i) && Offers(workers[i], existing, c)
      case TargetWorkerFull => exists i :: FirstNamed(workers, preferred, i) && Full(workers[i], Occupied(existing, preferred))
      case TargetWorkerUnavailable => forall w :: w in workers ==> w.id != preferred
      case NoSlotsAvailable => false
  }

  method SelectPreferred(workers: seq<Worker>, existing: SlotMap, preferred: WorkerId) returns (outcome: Selection)
    requires preferred != ""
    ensures Selects(workers, existing, preferred, outcome)
  {
    for i := 0 to |workers|
      invariant forall k :: 0 <= k < i ==> workers[k].id != preferred
    {
      if workers[i].id != preferred {
        continue;
      }
      assert FirstNamed(workers, preferred, i);
      var slot, ok := FirstAvailableSlot(workers[i], Occupied(existing, preferred));
      if !ok {
        return TargetWorkerFull;
      }
      return Chosen(Candidate(preferred, slot, Load(existing, preferred)));
    }
    return TargetWorkerUnavailable;
  }

  method SelectCandidate(workers: seq<Worker>, existing: SlotMap, preferred: WorkerId) returns (outcome: Selection)
    ensures Selects(workers, existing, preferred, outcome)
  {
    if preferred != "" {
      outcome := SelectPreferred(workers, existing, preferred);
      return;
    }
    var best := Candidate("", -1, 0);
    for i := 0 to |workers|
      invariant best.slot == -1 ==> forall k :: 0 <= k < i ==> Full(workers[k], Occupied(existing, workers[k].id))
      invariant best.slot != -1 ==> exists w :: w in workers && Offers(w, existing, best)
      invariant best.slot != -1 ==> Unbeaten(workers[..i], existing, best)
    {
      var worker := workers[i];
      var slot, ok := FirstAvailableSlot(worker, Occupied(existing, worker.id));
      assert workers[..i+1] == workers[..i] + [worker];
      if !ok {
        continue;
      }
      assert Free(worker, Occupied(existing, worker.id), slot);
      var count := Load(existing, worker.id);
      if best.slot == -1
        || count < best.count
        || (count == best.count && (IdLess(worker.id, best.worker) || (worker.id == best.worker && slot < best.slot)))
      {
        var previous := best;
        best := Candidate(worker.id, slot, count);
        assert Offers(worker, existing, best);
        NewBestUnbeaten(workers[..i], existing, previous, best);
        SelfNotBefore(worker.id);
      }
    }
    assert workers[..|workers|] == workers;
    if best.slot == -1 {
      return NoSlotsAvailable;
    }
    return Chosen(best);
  }

  lemma SelfNotBefore(id: WorkerId)
    ensures !IdLess(id, id)
  {
    if IdLess(id, id) {
      IdLessAsymmetric(id, id);
    }
  }

  /** Replacing the best candidate by one at most as late keeps it unbeaten. */
  lemma NewBestUnbeaten(scanned: seq<Worker>, existing: SlotMap, previous: Candidate, best: Candidate)
    requires previous.slot == -1 ==> forall k :: 0 <= k < |scanned| ==> Full(scanned[k], Occupied(existing, scanned[k].id))
    requires previous.slot != -1 ==> Unbeaten(scanned, existing, previous)
    requires previous.slot != -1 ==>
      Before(best.count, best.worker, previous.count, previous.worker) || (best.count == previous.count && best.worker == previous.worker)
    ensures Unbeaten(scanned, existing, best)
  {
    forall w | w in scanned && !Full(w, Occupied(existing, w.id))
      ensures !Before(Load(existing, w.id), w.id, best.count, best.worker)
    {
      if Before(Load(existing, w.id), w.id, best.count, best.worker)
        && IdLess(w.id, best.worker) && IdLess(best.worker, previous.worker)
      {
        IdLessTransitive(w.id, best.worker, previous.worker);
      }
    }
  }

  lemma FirstFreeUnique(w: Worker, w': Worker, occupied: set<int>, slot: int, slot': int)
    requires FirstFree(w, occupied, slot) && FirstFree(w', occupied, slot')
    ensures slot == slot'
  {
    assert !(slot < slot') && !(slot' < slot);
  }

  predicate DistinctIds(workers: seq<Worker>) {
    forall i, j :: 0 <= i < j < |workers| ==> workers[i].id != workers[j].id
  }

  /**
    The outcome depends only on which workers are listed, not on their order: the selection is a function
    of the set of schedulable workers. With a preference this needs the ids of the list to be distinct.
  */
  lemma SelectionOrderIrrelevant(workers: seq<Worker>, workers': seq<Worker>, existing: SlotMap, preferred: WorkerId,
                                 r: Selection, r': Selection)
    requires forall w :: w in workers <==> w in workers'
    requires preferred != "" ==> DistinctIds(workers) && DistinctIds(workers')
    requires Selects(workers, existing, preferred, r) && Selects(workers', existing, preferred, r')
    ensures r == r'
  {
    if preferred != "" {
      PreferredOrderIrrelevant(workers, workers', existing, preferred, r, r');
    } else if r.Chosen? && r'.Chosen? {
      LeastLoadedUnique(workers, workers', existing, r.candidate, r'.candidate);
    }
  }

  lemma LeastLoadedUnique(workers: seq<Worker>, workers': seq<Worker>, existing: SlotMap, c: Candidate, c': Candidate)
    requires forall w :: w in workers <==> w in workers'
    requires Selects(workers, existing, "", Chosen(c)) && Selects(workers', existing, "", Chosen(c'))
    ensures c == c'
  {
    var w :| w in workers && Offers(w, existing, c);
    var w' :| w' in workers' && Offers(w', existing, c');
    assert Free(w, Occupied(existing, w.id), c.slot) && Free(w', Occupied(existing, w'.id), c'.slot);
    assert !Before(c'.count, c'.worker, c.count, c.worker);
    assert !Before(c.count, c.worker, c'.count, c'.worker);
    IdLessTotal(c.worker, c'.worker);
    FirstFreeUnique(w, w', Occupied(existing, w.id), c.slot, c'.slot);
  }

  lemma PreferredOrderIrrelevant(workers: seq<Worker>, workers': seq<Worker>, existing: SlotMap, preferred: WorkerId,
                                 r: Selection, r': Selection)
    requires preferred != ""
    requires forall w :: w in workers <==> w in workers'
    requires DistinctIds(workers) && DistinctIds(workers')
    requires Selects(workers, existing, preferred, r) && Selects(workers', existing, preferred, r')
    ensures r == r'
  {
    if w :| w in workers && w.id == preferred {
      var i :| FirstNamed(workers, preferred, i);
      var j :| FirstNamed(workers', preferred, j);
      assert workers[i] in workers' && workers[i] == workers'[j];
      var slots := Occupied(existing, preferred);
      if r.Chosen? {
        assert Free(workers[i], slots, r.candidate.slot);
      }
      if r'.Chosen? {
        assert Free(workers[i], slots, r'.candidate.slot);
      }
      if r.Chosen? && r'.Chosen? {
        FirstFreeUnique(workers[i], workers[i], slots, r.candidate.slot, r'.candidate.slot);
      }
    }
  }

  /** Lexicographic order: at the first difference the smaller character, or a proper prefix. */
  ghost predicate Lexicographic(a: string, b: string) {
    exists k :: 0 <= k <= |a| && k < |b| && a[..k] == b[..k] && (k == |a| || a[k] < b[k])
  }

  lemma {:induction false} IdLessIsLexicographic(a: string, b: string)
    ensures IdLess(a, b) ==> Lexicographic(a, b)
  {
    if b != "" {
      if a == "" || a[0] < b[0] {
        assert a[..0] == b[..0];
      } else if IdLess(a, b) {
        IdLessIsLexicographic(a[1..], b[1..]);
        var k :| 0 <= k <= |a| - 1 && k < |b| - 1 && a[1..][..k] == b[1..][..k] && (k == |a| - 1 || a[1..][k] < b[1..][k]);
        assert a[..k+1] == [a[0]] + a[1..][..k] && b[..k+1] == [b[0]] + b[1..][..k];
      }
    }
  }

  /**
    The choice without a preference, spelled out: the least free slot of a listed worker, and every listed worker with a
    free slot has more rows, or as many and an id that comes later.
  */
  lemma ChoiceIsLeast(workers: seq<Worker>, existing: SlotMap, c: Candidate, w: Worker, slot: int)
    requires Selects(workers, existing, "", Chosen(c))
    requires w in workers && 0 <= slot < w.poolSize && slot !in Occupied(existing, w.id)
    ensures exists v :: v in workers && v.id == c.worker && 0 <= c.slot < v.poolSize
    ensures c.slot !in Occupied(existing, c.worker) && forall k :: 0 <= k < c.slot ==> k in Occupied(existing, c.worker)
    ensures |Occupied(existing, c.worker)| <= |Occupied(existing, w.id)|
    ensures |Occupied(existing, c.worker)| == |Occupied(existing, w.id)| ==> c.worker == w.id || Lexicographic(c.worker, w.id)
  {
    var v :| v in workers && Offers(v, existing, c);
    assert !Full(w, Occupied(existing, w.id));
    IdLessTotal(c.worker, w.id);
    IdLessIsLexicographic(c.worker, w.id);
  }
}
