/** Safety over whole runs: capacity, no orphans, no live VM destroyed, release is final. */
module ProtocolSafety {
  import opened Types
  import opened Table
  import opened Runtime
  import opened Manager
  import opened Protocol
  import opened ProtocolInvariant
  import opened Sets
  import A = Allocator
  import Runs = AllocatorRuns
  import C = Claims

  /**
    Host capacity. Whatever is lost, repeated or delayed, whichever commands fail and however often the
    worker crashes: every workstation VM on a host has a row on that worker, no two share one, and so
    the host never holds more of them than its pool size.
  */
  lemma HostCapacity(states: seq<State>, steps: seq<Step>, i: nat, w: WorkerId)
    requires IsRun(states, steps) && i < |states| && w in states[i].hosts
    ensures var s := states[i];
            && w in s.pools
            && (forall n :: n in s.hosts[w].disk ==>
                  exists id :: id in s.rows && s.rows[id].worker == w && s.rows[id].vmName == n)
            && |s.hosts[w].disk| <= if s.pools[w] <= 0 then 0 else s.pools[w]
  {
    RunsKeepInv(states, steps, i);
    InvBoundsDisk(states[i], w);
    var s := states[i];
    forall n | n in s.hosts[w].disk ensures exists id :: id in s.rows && s.rows[id].worker == w && s.rows[id].vmName == n {
      assert HostOk(s, w, s.hosts[w]);
      assert s.rows[s.owner[n]].vmName == n;
    }
  }

  lemma InvBoundsDisk(s: State, w: WorkerId)
    requires Inv(s) && w in s.hosts
    ensures w in s.pools && |s.hosts[w].disk| <= if s.pools[w] <= 0 then 0 else s.pools[w]
  {
    var disk := s.hosts[w].disk;
    assert HostOk(s, w, s.hosts[w]);
    var slots := map n | n in disk :: s.rows[s.owner[n]].slot;
    forall n, k | n in disk && k in disk && n != k ensures slots[n] != slots[k] {
      var a, b := s.owner[n], s.owner[k];
      assert a in s.rows && b in s.rows && s.rows[a].vmName == n && s.rows[b].vmName == k;
    }
    InjectionBound(disk, slots, s.pools[w]);
  }

  /** Placements are unique and inside their pools in every reachable table. */
  lemma PlacementsStaySound(states: seq<State>, steps: seq<Step>, i: nat)
    requires IsRun(states, steps) && i < |states|
    ensures var s := states[i];
            && SlotsUnique(s.rows)
            && forall id :: id in s.rows ==> s.rows[id].worker in s.pools && 0 <= s.rows[id].slot < s.pools[s.rows[id].worker]
  {
    RunsKeepInv(states, steps, i);
    forall id | id in states[i].rows ensures id in states[i].born {
    }
  }

  /** The rows of a worker. */
  function RowsOn(rows: Rows, w: WorkerId): set<WorkstationId> {
    set id | id in rows && rows[id].worker == w
  }

  lemma RowsCountSlots(rows: Rows, w: WorkerId)
    requires SlotsUnique(rows)
    ensures |RowsOn(rows, w)| == |SlotsIn(rows, w)|
  {
    var ids := RowsOn(rows, w);
    var slots := map id | id in ids :: rows[id].slot;
    var image := Image(ids, slots);
    forall k | k in SlotsIn(rows, w) ensures k in image {
      var id :| id in rows && rows[id].worker == w && rows[id].slot == k;
      assert id in ids && slots[id] == k;
    }
    assert image == SlotsIn(rows, w);
  }

  /** Pigeonhole on reachable tables: a worker has a free slot exactly when it has fewer rows than its pool size. */
  lemma ReachablePigeonhole(states: seq<State>, steps: seq<Step>, i: nat, w: WorkerId)
    requires IsRun(states, steps) && i < |states| && w in states[i].pools
    ensures var s := states[i];
            A.Full(A.Worker(w, s.pools[w]), SlotsIn(s.rows, w)) <==> |RowsOn(s.rows, w)| >= s.pools[w]
  {
    PlacementsStaySound(states, steps, i);
    RowsCountSlots(states[i].rows, w);
    Runs.FullIffLoadIsPool(A.Worker(w, states[i].pools[w]), SlotsIn(states[i].rows, w));
  }

  /** The insert of a claim never violates UNIQUE (worker_id, slot), whatever ran since its reads. */
  lemma ClaimsNeverCollide(states: seq<State>, steps: seq<Step>, i: nat)
    requires IsRun(states, steps) && i < |steps| && steps[i].ClaimInsert?
    ensures var c := steps[i].candidate;
            && c.worker in states[i].pools && 0 <= c.slot < states[i].pools[c.worker]
            && forall id :: id in states[i].rows ==> states[i].rows[id].worker != c.worker || states[i].rows[id].slot != c.slot
  {
    RunsKeepInv(states, steps, i);
    InsertNeverCollides(states[i], steps[i].candidate);
  }

  /** What a claim reads is the table: its slot map is the one the allocator works on. */
  lemma ClaimReadsTheTable(states: seq<State>, steps: seq<Step>, i: nat)
    requires IsRun(states, steps) && i < |steps| && steps[i].ClaimReadSlots?
    ensures states[i+1].claim.SawSlots? && Runs.Agrees(states[i+1].claim.existing, C.PlacementsOf(states[i].rows))
  {
    PlacementsStaySound(states, steps, i);
    var s := states[i];
    assert states[i+1] == Next(s, steps[i]);
    forall w: WorkerId ensures A.Occupied(states[i+1].claim.existing, w) == Runs.SlotsOf(C.PlacementsOf(s.rows), w) {
      SlotsOfRows(s.rows, w);
    }
  }

  lemma SlotsOfRows(rows: Rows, w: WorkerId)
    ensures SlotsIn(rows, w) == Runs.SlotsOf(C.PlacementsOf(rows), w)
  {
    forall slot | slot in SlotsIn(rows, w) ensures slot in Runs.SlotsOf(C.PlacementsOf(rows), w) {
      assert Runs.Placement(w, slot) in C.PlacementsOf(rows);
    }
  }

  // What one step can do to a disk.

  lemma ServerKeepsHosts(s: State, step: Step, w: WorkerId)
    requires Guard(s, step) && w in s.hosts && w in s.pools && OnServer(step)
    ensures w in Next(s, step).hosts && Next(s, step).hosts[w] == s.hosts[w]
  {
  }

  lemma OnlyCommandsTouchDisks(s: State, step: Step, w: WorkerId)
    requires Guard(s, step) && w in s.hosts && w in s.pools
    requires !(step.RunCommand? && step.worker == w)
    ensures w in Next(s, step).hosts && Next(s, step).hosts[w].disk == s.hosts[w].disk
  {
    if OnServer(step) {
      ServerKeepsHosts(s, step, w);
    }
  }

  /**
    No live VM is destroyed: a VM disappears from a disk only in a delete command of its own runtime, and
    only when the server has condemned or already removed its row. Outages, lost responses and
    non-authoritative responses never lead to a deletion.
  */
  lemma OnlyCondemnedVMsAreDeleted(states: seq<State>, steps: seq<Step>, i: nat, w: WorkerId, n: VMName)
    requires IsRun(states, steps) && i < |steps|
    requires w in states[i].hosts && n in states[i].hosts[w].disk
    requires w !in states[i+1].hosts || n !in states[i+1].hosts[w].disk
    ensures steps[i].RunCommand? && steps[i].worker == w
    ensures n in states[i].owner && Condemned(states[i].rows, states[i].owner[n])
  {
    var s := states[i];
    RunsKeepInv(states, steps, i);
    if steps[i].RunCommand? && steps[i].worker == w {
      DeletedByCommand(s, w, steps[i].answer, n);
    } else {
      OnlyCommandsTouchDisks(s, steps[i], w);
    }
  }

  lemma DeletedByCommand(s: State, w: WorkerId, answer: Outcome, n: VMName)
    requires Inv(s) && Guard(s, RunCommand(w, answer)) && Honest(s, RunCommand(w, answer))
    requires n in s.hosts[w].disk && n !in Next(s, RunCommand(w, answer)).hosts[w].disk
    ensures n in s.owner && Condemned(s.rows, s.owner[n])
  {
    var m := Current(s.hosts[w]);
    CurrentFits(s, w, answer);
    CommandIsSafe(m, answer);
    assert n == m.rt.vmName && m.rt.desired == Desired.Deleted;
  }

  /**
    Without that honesty the guarantee is lost: when either `tart get` of a deletion reports a VM absent that is on disk,
    the worker says "deleted", the server removes the row, and the VM stays behind without one. (The runtime is the
    last one of its round and still listed.)
  */
  lemma FalseAbsenceOrphansVM(s: State, s1: State, s2: State, s3: State, w: WorkerId, id: WorkstationId,
                              answer: Outcome, payload: seq<Report>)
    requires Inv(s) && Guard(s, RunCommand(w, answer)) && s1 == Next(s, RunCommand(w, answer))
    requires Guard(s1, TakeSnapshot(w, payload)) && s2 == Next(s1, TakeSnapshot(w, payload))
    requires Guard(s2, SendHeartbeat(w)) && s3 == Next(s2, SendHeartbeat(w))
    requires id == ProcOf(s, w).phase.current.value.id && id in ProcOf(s, w).desiredIDs && id in s.rows
    requires (Current(s.hosts[w]).pc == DeleteGet || Current(s.hosts[w]).pc == DeleteRecheck) && Current(s.hosts[w]).onDisk && !answer.present
    ensures Guard(s3, Redeliver(w, Report(id, Power.Deleted)))
    ensures var s4 := Next(s3, Redeliver(w, Report(id, Power.Deleted)));
            && id !in s4.rows && w in s4.hosts && s.rows[id].vmName in s4.hosts[w].disk
  {
    RuntimeRow(s, w, answer, id);
    SaysDeleted(s, w, answer);
    ReportsDeleted(s1, s2, s3, w, id, payload);
    DeletedRemovesRow(s3, w, id);
  }

  lemma ReportsDeleted(s1: State, s2: State, s3: State, w: WorkerId, id: WorkstationId, payload: seq<Report>)
    requires Guard(s1, TakeSnapshot(w, payload)) && s2 == Next(s1, TakeSnapshot(w, payload))
    requires Guard(s2, SendHeartbeat(w)) && s3 == Next(s2, SendHeartbeat(w))
    requires id in ProcOf(s1, w).runtimes && ProcOf(s1, w).runtimes[id].state == Power.Deleted && id in ProcOf(s1, w).desiredIDs
    ensures Message(w, Report(id, Power.Deleted)) in s3.net
    ensures s3.rows == s1.rows && w in s3.hosts && s3.hosts[w].disk == s1.hosts[w].disk
  {
    var kept := Prune(ProcOf(s1, w).runtimes, ProcOf(s1, w).desiredIDs);
    assert id in kept && kept[id].state == Power.Deleted;
    assert Report(id, Power.Deleted) in payload;
  }

  lemma RuntimeRow(s: State, w: WorkerId, answer: Outcome, id: WorkstationId)
    requires Inv(s) && Guard(s, RunCommand(w, answer)) && DeletePath(Current(s.hosts[w]).pc)
    requires id == ProcOf(s, w).phase.current.value.id && id in s.rows
    ensures s.rows[id].worker == w && s.rows[id].desired == Desired.Deleted && s.rows[id].vmName == Current(s.hosts[w]).rt.vmName
  {
    CurrentFits(s, w, answer);
  }

  lemma DeletedRemovesRow(s: State, w: WorkerId, id: WorkstationId)
    requires id in s.rows && s.rows[id].worker == w && s.rows[id].desired == Desired.Deleted
    ensures Deliver(s, w, Report(id, Power.Deleted)) == s.(rows := s.rows - {id})
  {
  }

  lemma SaysDeleted(s: State, w: WorkerId, answer: Outcome)
    requires Guard(s, RunCommand(w, answer)) && !answer.present
    requires (Current(s.hosts[w]).pc == DeleteGet || Current(s.hosts[w]).pc == DeleteRecheck) && Current(s.hosts[w]).onDisk
    ensures var s1 := Next(s, RunCommand(w, answer));
            var id := ProcOf(s, w).phase.current.value.id;
            && s1 == s.(hosts := s1.hosts) && Alive(s1, w) && id in ProcOf(s1, w).runtimes
            && ProcOf(s1, w).runtimes[id].state == Power.Deleted
            && ProcOf(s1, w).desiredIDs == ProcOf(s, w).desiredIDs
            && s1.hosts[w].disk == s.hosts[w].disk
  {
  }

  // Release is a one-way door.

  lemma StepExtends(s: State, step: Step)
    requires Inv(s) && Guard(s, step) && Honest(s, step)
    ensures Extends(s, Next(s, step))
  {
    if OnServer(step) {
      ServerStepExtends(s, step);
    } else if step.HandleReport? {
      ProcIsOk(s, step.worker);
      DeliverExtends(s, step.worker, ProcOf(s, step.worker).phase.unhandled[0]);
    } else {
      WorkerStepExtends(s, step);
    }
  }

  lemma WorkerStepExtends(s: State, step: Step)
    requires Guard(s, step) && !OnServer(step) && !step.HandleReport?
    ensures Extends(s, Next(s, step))
  {
  }

  lemma ServerStepExtends(s: State, step: Step)
    requires Inv(s) && Guard(s, step) && OnServer(step)
    ensures Extends(s, Next(s, step))
  {
    if step.MemberEnsuresRunning? || step.MemberSetsDesired? {
      MemberStepExtends(s, step);
    } else if step.Redeliver? {
      DeliverExtends(s, step.worker, step.report);
    } else {
      QuietServerStepExtends(s, step);
    }
  }

  lemma MemberStepExtends(s: State, step: Step)
    requires RowsOk(s) && (step.MemberEnsuresRunning? || step.MemberSetsDesired?)
    ensures Extends(s, Next(s, step))
  {
    match step
    case MemberEnsuresRunning(member, id) =>
      MemberTransactionIsRowsStep(s, id, member, Desired.Running, EnsureRunningReply(s.rows, member, id));
      RowsStepExtends(s, Next(s, step));
    case MemberSetsDesired(member, id, desired) =>
      MemberTransactionIsRowsStep(s, id, member, desired, SetDesiredReply(s.rows, member, id, desired));
      RowsStepExtends(s, Next(s, step));
  }

  lemma QuietServerStepExtends(s: State, step: Step)
    requires Guard(s, step) && OnServer(step) && !step.MemberEnsuresRunning? && !step.MemberSetsDesired? && !step.Redeliver?
    ensures Extends(s, Next(s, step))
  {
    if step.ClaimInsert? {
      InsertExtends(s, Next(s, step), s.claim.member, step.id, VMNameOf(step.id), step.candidate);
    }
  }

  lemma DeliverExtends(s: State, w: WorkerId, report: Report)
    requires Inv(s) && ReportOk(s, w, report)
    ensures Extends(s, Deliver(s, w, report))
  {
    if report.power == Power.Deleted {
      NotOnAnyDisk(s, report.id);
    }
    ReportIsRowsStep(s, w, report);
    RowsStepExtends(s, Deliver(s, w, report));
  }

  lemma StepExtendsOf(states: seq<State>, steps: seq<Step>, k: nat)
    requires IsRun(states, steps) && k < |steps|
    ensures Extends(states[k], states[k+1])
  {
    RunsKeepInv(states, steps, k);
    StepExtends(states[k], steps[k]);
  }

  lemma ExtendsTransitive(s: State, s': State, s'': State)
    requires Extends(s, s') && Extends(s', s'')
    ensures Extends(s, s'')
  {
  }

  lemma {:induction false} ExtendsThroughout(states: seq<State>, i: nat, j: nat)
    requires i <= j < |states| && forall k :: i <= k < j ==> Extends(states[k], states[k+1])
    ensures Extends(states[i], states[j])
  {
    if i < j {
      ExtendsThroughout(states, i, j - 1);
      assert Extends(states[j-1], states[j-1+1]);
      ExtendsTransitive(states[i], states[j-1], states[j]);
    }
  }

  lemma RunsExtend(states: seq<State>, steps: seq<Step>, i: nat, j: nat)
    requires IsRun(states, steps) && i <= j < |states|
    ensures Extends(states[i], states[j])
  {
    forall k | i <= k < j ensures Extends(states[k], states[k+1]) {
      StepExtendsOf(states, steps, k);
    }
    ExtendsThroughout(states, i, j);
  }

  /** In every reachable table a row is desired deleted exactly when it is deleting, and "deleted" is never stored. */
  lemma ReleaseStatesAgree(states: seq<State>, steps: seq<Step>, i: nat, id: WorkstationId)
    requires IsRun(states, steps) && i < |states| && id in states[i].rows
    ensures states[i].rows[id].desired == Desired.Deleted <==> GoingAway(states[i].rows[id].power)
    ensures states[i].rows[id].power != Power.Deleted
  {
    RunsKeepInv(states, steps, i);
  }

  /** A row keeps its member, worker, slot and VM name for life; once released it stays released, once gone it stays gone. */
  lemma RowsAgeOneWay(states: seq<State>, steps: seq<Step>, i: nat, j: nat, id: WorkstationId)
    requires IsRun(states, steps) && i <= j < |states| && id in states[i].rows
    ensures id in states[j].rows ==> SamePlacement(states[i].rows[id], states[j].rows[id])
    ensures Condemned(states[i].rows, id) ==> Condemned(states[j].rows, id)
    ensures id !in states[j].rows ==> forall k :: j <= k < |states| ==> id !in states[k].rows
  {
    RunsKeepInv(states, steps, i);
    RunsKeepInv(states, steps, j);
    RunsExtend(states, steps, i, j);
    forall k | j <= k < |states| && id !in states[j].rows ensures id !in states[k].rows {
      RunsExtend(states, steps, j, k);
    }
  }

  /** The runtime of a workstation on a host, if the process runs and knows it. */
  predicate HasRuntime(s: State, w: WorkerId, id: WorkstationId) {
    Alive(s, w) && id in ProcOf(s, w).runtimes
  }

  /** Once any runtime incarnation was told "deleted", no later one, after any crash, is told anything else. */
  lemma ToldDeletedForEver(states: seq<State>, steps: seq<Step>, i: nat, j: nat, w: WorkerId, v: WorkerId, id: WorkstationId)
    requires IsRun(states, steps) && i <= j < |states|
    requires HasRuntime(states[i], w, id) && ProcOf(states[i], w).runtimes[id].desired == Desired.Deleted
    requires HasRuntime(states[j], v, id)
    ensures ProcOf(states[j], v).runtimes[id].desired == Desired.Deleted
    ensures v == w
  {
    RunsKeepInv(states, steps, i);
    RunsKeepInv(states, steps, j);
    RunsExtend(states, steps, i, j);
    ProcIsOk(states[i], w);
    ProcIsOk(states[j], v);
    assert RuntimeOk(states[i], w, states[i].hosts[w].disk, id, ProcOf(states[i], w).runtimes[id]);
    assert RuntimeOk(states[j], v, states[j].hosts[v].disk, id, ProcOf(states[j], v).runtimes[id]);
  }
}
