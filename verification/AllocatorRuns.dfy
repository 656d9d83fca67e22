/**
  The allocator over whole tables and whole sequences of claims: pigeonhole, exhaustion and balance.
  UNIQUE (worker_id, slot) makes the pairs a set, so a table is the set of its placements.
*/
module AllocatorRuns {
  import opened Types
  import opened Allocator
  import opened Sets

  datatype Placement = Placement(worker: WorkerId, slot: int)

  type Table = set<Placement>

  function SlotsOf(table: Table, worker: WorkerId): set<int> {
    set p | p in table && p.worker == worker :: p.slot
  }

  lemma SlotsOfMembers(table: Table, worker: WorkerId)
    ensures forall slot :: slot in SlotsOf(table, worker) <==> Placement(worker, slot) in table
  {
    forall slot | Placement(worker, slot) in table ensures slot in SlotsOf(table, worker) {
      var p := Placement(worker, slot);
      assert p.worker == worker && p.slot == slot;
    }
  }

  /** The nested map and the table hold the same slots for every worker. */
  ghost predicate Agrees(existing: SlotMap, table: Table) {
    forall w: WorkerId :: Occupied(existing, w) == SlotsOf(table, w)
  }

  /** The scan that fills the nested map from the (worker, slot) rows of the table. */
  method ListAllocatedSlots(rows: seq<Placement>) returns (taken: SlotMap)
    ensures Agrees(taken, set p | p in rows)
  {
    taken := map[];
    for i := 0 to |rows|
      invariant forall w: WorkerId, slot :: slot in Occupied(taken, w) <==> Placement(w, slot) in rows[..i]
    {
      var p := rows[i];
      assert rows[..i+1] == rows[..i] + [p];
      if p.worker !in taken {
        taken := taken[p.worker := {}];
      }
      taken := taken[p.worker := taken[p.worker] + {p.slot}];
    }
    assert rows[..|rows|] == rows;
    var table := set p | p in rows;
    forall w: WorkerId ensures Occupied(taken, w) == SlotsOf(table, w) {
      SlotsOfMembers(table, w);
      forall slot ensures slot in Occupied(taken, w) <==> slot in SlotsOf(table, w) {
        assert Placement(w, slot) in table <==> Placement(w, slot) in rows;
      }
    }
  }

  /** Every placement of the worker lies inside its pool. */
  ghost predicate InPool(worker: Worker, occupied: set<int>) {
    forall slot :: slot in occupied ==> 0 <= slot < worker.poolSize
  }

  /** Pigeonhole: inside its pool, a worker is full exactly when it has as many rows as slots. */
  lemma FullIffLoadIsPool(worker: Worker, occupied: set<int>)
    requires InPool(worker, occupied)
    ensures |occupied| <= if worker.poolSize < 0 then 0 else worker.poolSize
    ensures Full(worker, occupied) <==> |occupied| >= worker.poolSize
  {
    assert occupied <= Range(worker.poolSize);
    SubsetSize(occupied, Range(worker.poolSize));
    if Full(worker, occupied) {
      assert occupied == Range(worker.poolSize);
    }
  }

  // Sequences of claims without a preference, over a fixed list of schedulable workers.

  ghost predicate TableInPools(workers: seq<Worker>, table: Table) {
    forall w :: w in workers ==> InPool(w, SlotsOf(table, w.id))
  }

  /** One claim, with a nested map read from the table. */
  ghost predicate ClaimGives(workers: seq<Worker>, table: Table, outcome: Selection) {
    exists existing: SlotMap :: Agrees(existing, table) && Selects(workers, existing, "", outcome)
  }

  ghost predicate ClaimStep(workers: seq<Worker>, table: Table, table': Table) {
    exists c: Candidate :: ClaimGives(workers, table, Chosen(c)) && table' == table + {Placement(c.worker, c.slot)}
  }

  /** A run of successful claims that starts from the empty table. */
  ghost predicate ClaimRun(workers: seq<Worker>, tables: seq<Table>) {
    && |tables| > 0
    && tables[0] == {}
    && forall i :: 0 <= i < |tables| - 1 ==> ClaimStep(workers, tables[i], tables[i+1])
  }

  function LoadIn(table: Table, worker: WorkerId): nat {
    |SlotsOf(table, worker)|
  }

  function FreeIn(worker: Worker, table: Table): nat {
    if LoadIn(table, worker.id) < worker.poolSize then worker.poolSize - LoadIn(table, worker.id) else 0
  }

  function TotalFree(workers: seq<Worker>, table: Table): nat {
    if workers == [] then 0 else FreeIn(workers[0], table) + TotalFree(workers[1..], table)
  }

  /** The sum of the pool sizes (a negative pool offers nothing). */
  function Capacity(workers: seq<Worker>): nat {
    if workers == [] then 0 else (if workers[0].poolSize > 0 then workers[0].poolSize else 0) + Capacity(workers[1..])
  }

  lemma SlotsAfterClaim(table: Table, p: Placement, worker: WorkerId)
    ensures SlotsOf(table + {p}, worker) == if worker == p.worker then SlotsOf(table, worker) + {p.slot} else SlotsOf(table, worker)
  {
    SlotsOfMembers(table, worker);
    SlotsOfMembers(table + {p}, worker);
  }

  /** The chosen worker is listed, has room for the chosen slot, and no worker with room has fewer rows. */
  lemma ClaimChoice(workers: seq<Worker>, table: Table, c: Candidate) returns (i: nat)
    requires TableInPools(workers, table)
    requires ClaimGives(workers, table, Chosen(c))
    ensures i < |workers| && workers[i].id == c.worker && Free(workers[i], SlotsOf(table, c.worker), c.slot)
    ensures LoadIn(table, c.worker) < workers[i].poolSize
    ensures forall w :: w in workers && LoadIn(table, w.id) < w.poolSize ==> LoadIn(table, c.worker) <= LoadIn(table, w.id)
  {
    var existing: SlotMap :| Agrees(existing, table) && Selects(workers, existing, "", Chosen(c));
    var w :| w in workers && Offers(w, existing, c);
    i :| 0 <= i < |workers| && workers[i] == w;
    assert Occupied(existing, w.id) == SlotsOf(table, w.id);
    assert Free(w, SlotsOf(table, w.id), c.slot);
    FullIffLoadIsPool(w, SlotsOf(table, w.id));
    forall v | v in workers && LoadIn(table, v.id) < v.poolSize ensures LoadIn(table, c.worker) <= LoadIn(table, v.id) {
      FullIffLoadIsPool(v, SlotsOf(table, v.id));
      assert Occupied(existing, v.id) == SlotsOf(table, v.id);
    }
  }

  /** A claim adds one slot to the chosen worker, inside its pool, and leaves every other worker's slots alone. */
  lemma ClaimEffect(workers: seq<Worker>, table: Table, c: Candidate) returns (i: nat)
    requires TableInPools(workers, table) && DistinctIds(workers)
    requires ClaimGives(workers, table, Chosen(c))
    ensures i < |workers| && workers[i].id == c.worker && LoadIn(table, c.worker) < workers[i].poolSize
    ensures var table' := table + {Placement(c.worker, c.slot)};
            && TableInPools(workers, table')
            && LoadIn(table', c.worker) == LoadIn(table, c.worker) + 1
            && forall w: WorkerId :: w != c.worker ==> SlotsOf(table', w) == SlotsOf(table, w)
    ensures forall w :: w in workers && LoadIn(table, w.id) < w.poolSize ==> LoadIn(table, c.worker) <= LoadIn(table, w.id)
  {
    i := ClaimChoice(workers, table, c);
    var p := Placement(c.worker, c.slot);
    forall w: WorkerId ensures w != c.worker ==> SlotsOf(table + {p}, w) == SlotsOf(table, w) {
      SlotsAfterClaim(table, p, w);
    }
    SlotsAfterClaim(table, p, c.worker);
    forall v | v in workers ensures InPool(v, SlotsOf(table + {p}, v.id)) {
      if v.id == c.worker {
        var j :| 0 <= j < |workers| && workers[j] == v;
        assert i == j;
      }
    }
  }

  /** A claim without a preference fails exactly when every schedulable worker has as many rows as slots. */
  lemma ClaimFailsIffAllFull(workers: seq<Worker>, table: Table, outcome: Selection)
    requires TableInPools(workers, table)
    requires ClaimGives(workers, table, outcome)
    ensures !outcome.Chosen? <==> forall w :: w in workers ==> LoadIn(table, w.id) >= w.poolSize
  {
    var existing: SlotMap :| Agrees(existing, table) && Selects(workers, existing, "", outcome);
    forall w | w in workers ensures Full(w, Occupied(existing, w.id)) <==> LoadIn(table, w.id) >= w.poolSize {
      FullIffLoadIsPool(w, SlotsOf(table, w.id));
    }
    if outcome.Chosen? {
      var w :| w in workers && Offers(w, existing, outcome.candidate);
      assert Free(w, Occupied(existing, w.id), outcome.candidate.slot);
    }
  }

  lemma {:induction false} TotalFreeZero(workers: seq<Worker>, table: Table)
    ensures TotalFree(workers, table) == 0 <==> forall w :: w in workers ==> LoadIn(table, w.id) >= w.poolSize
  {
    if workers != [] {
      TotalFreeZero(workers[1..], table);
      assert forall w :: w in workers <==> w == workers[0] || w in workers[1..];
    }
  }

  lemma {:induction false} TotalFreeSame(workers: seq<Worker>, table: Table, table': Table)
    requires forall w :: w in workers ==> SlotsOf(table, w.id) == SlotsOf(table', w.id)
    ensures TotalFree(workers, table) == TotalFree(workers, table')
  {
    if workers != [] {
      assert workers[0] in workers;
      TotalFreeSame(workers[1..], table, table');
    }
  }

  /** Taking one free slot of worker `i` lowers the total by one. */
  lemma {:induction false} TotalFreeDrops(workers: seq<Worker>, table: Table, table': Table, i: nat)
    requires i < |workers| && DistinctIds(workers)
    requires LoadIn(table, workers[i].id) < workers[i].poolSize
    requires LoadIn(table', workers[i].id) == LoadIn(table, workers[i].id) + 1
    requires forall w: WorkerId :: w != workers[i].id ==> SlotsOf(table', w) == SlotsOf(table, w)
    ensures TotalFree(workers, table') == TotalFree(workers, table) - 1
  {
    if i == 0 {
      TotalFreeSame(workers[1..], table, table');
    } else {
      assert workers[0].id != workers[i].id;
      TotalFreeDrops(workers[1..], table, table', i - 1);
    }
  }

  lemma {:induction false} TotalFreeAtStart(workers: seq<Worker>)
    ensures TotalFree(workers, {}) == Capacity(workers)
  {
    if workers != [] {
      assert SlotsOf({}, workers[0].id) == {};
      TotalFreeAtStart(workers[1..]);
    }
  }

  /** Conservation: claims made so far plus free slots left is the total capacity. */
  lemma {:induction false} ClaimsConserveCapacity(workers: seq<Worker>, tables: seq<Table>)
    requires DistinctIds(workers) && ClaimRun(workers, tables)
    ensures TableInPools(workers, tables[|tables|-1])
    ensures |tables| - 1 + TotalFree(workers, tables[|tables|-1]) == Capacity(workers)
  {
    if |tables| == 1 {
      TotalFreeAtStart(workers);
    } else {
      var n := |tables| - 2;
      ClaimsConserveCapacity(workers, tables[..n+1]);
      assert ClaimStep(workers, tables[n], tables[n+1]);
      var c: Candidate :| ClaimGives(workers, tables[n], Chosen(c)) && tables[n+1] == tables[n] + {Placement(c.worker, c.slot)};
      var i := ClaimEffect(workers, tables[n], c);
      TotalFreeDrops(workers, tables[n], tables[n+1], i);
    }
  }

  /** From an empty table exactly the sum of the pool sizes claims succeed before the first failure. */
  lemma ExactlyCapacityClaimsSucceed(workers: seq<Worker>, tables: seq<Table>, next: Selection)
    requires DistinctIds(workers) && ClaimRun(workers, tables)
    requires ClaimGives(workers, tables[|tables|-1], next)
    ensures |tables| - 1 <= Capacity(workers)
    ensures !next.Chosen? <==> |tables| - 1 == Capacity(workers)
  {
    ClaimsConserveCapacity(workers, tables);
    ClaimFailsIffAllFull(workers, tables[|tables|-1], next);
    TotalFreeZero(workers, tables[|tables|-1]);
  }

  /** A worker is at most one ahead of every worker that still has room. */
  ghost predicate Balanced(workers: seq<Worker>, table: Table) {
    forall a, b :: a in workers && b in workers && LoadIn(table, a.id) < a.poolSize ==>
      LoadIn(table, b.id) <= LoadIn(table, a.id) + 1
  }

  lemma ClaimKeepsBalance(workers: seq<Worker>, table: Table, table': Table)
    requires DistinctIds(workers) && TableInPools(workers, table) && Balanced(workers, table)
    requires ClaimStep(workers, table, table')
    ensures TableInPools(workers, table') && Balanced(workers, table')
  {
    var c: Candidate :| ClaimGives(workers, table, Chosen(c)) && table' == table + {Placement(c.worker, c.slot)};
    var i := ClaimEffect(workers, table, c);
    forall a, b | a in workers && b in workers && LoadIn(table', a.id) < a.poolSize
      ensures LoadIn(table', b.id) <= LoadIn(table', a.id) + 1
    {
      assert LoadIn(table, a.id) <= LoadIn(table', a.id);
      assert LoadIn(table, b.id) <= LoadIn(table, a.id) + 1;
    }
  }

  /** Every run of claims from the empty table stays balanced. */
  lemma {:induction false} RunsStayBalanced(workers: seq<Worker>, tables: seq<Table>)
    requires DistinctIds(workers) && ClaimRun(workers, tables)
    ensures TableInPools(workers, tables[|tables|-1]) && Balanced(workers, tables[|tables|-1])
  {
    if |tables| == 1 {
      assert forall w: WorkerId :: SlotsOf({}, w) == {};
    } else {
      var n := |tables| - 2;
      RunsStayBalanced(workers, tables[..n+1]);
      ClaimKeepsBalance(workers, tables[n], tables[n+1]);
    }
  }
}
