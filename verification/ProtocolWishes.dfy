/**
  What a member asks for reaches the worker, and what the worker reports reaches the table: wishes stand until the next
  one, an applied response tells every runtime what the table said, and a stored report shows the reported state.
*/
module ProtocolWishes {
  import opened Types
  import opened Table
  import opened Runtime
  import opened Manager
  import opened Protocol
  import opened ProtocolInvariant
  import opened ProtocolSafety
  import opened ProtocolProgress
  import A = Allocator
  import C = Claims

  // A wish stands until the next one.

  /** A member asks something of this row. */
  predicate AsksOf(step: Step, id: WorkstationId) {
    (step.MemberEnsuresRunning? && step.id == id) || (step.MemberSetsDesired? && step.id == id)
  }

  lemma OthersKeepDesired(s: State, step: Step, id: WorkstationId)
    requires Guard(s, step) && id in s.rows && id in s.born && id in Next(s, step).rows && !AsksOf(step, id)
    ensures Next(s, step).rows[id].desired == s.rows[id].desired
  {
    if OnServer(step) {
      ServerKeepsDesired(s, step, id);
    } else if step.HandleReport? {
      ReportKeepsDesired(s.rows, step.worker, ProcOf(s, step.worker).phase.unhandled[0], id);
    } else {
      WorkersKeepRows(s, step);
    }
  }

  lemma ReportKeepsDesired(rows: Rows, w: WorkerId, report: Report, id: WorkstationId)
    requires id in rows
    ensures var after := Commit(rows, report.id, ReportReply(rows, w, report)); id in after ==> after[id].desired == rows[id].desired
  {
  }

  lemma ServerKeepsDesired(s: State, step: Step, id: WorkstationId)
    requires Guard(s, step) && OnServer(step) && id in s.rows && id in s.born && id in Next(s, step).rows && !AsksOf(step, id)
    ensures Next(s, step).rows[id].desired == s.rows[id].desired
  {
    if step.Redeliver? {
      ReportKeepsDesired(s.rows, step.worker, step.report, id);
    }
  }

  lemma WorkersKeepRows(s: State, step: Step)
    requires Guard(s, step) && !OnServer(step) && !step.HandleReport?
    ensures Next(s, step).rows == s.rows
  {
  }

  predicate KeptDesired(s: State, s': State, id: WorkstationId) {
    id in s.rows && id in s'.rows && s'.rows[id].desired == s.rows[id].desired
  }

  lemma {:induction false} KeptThroughout(states: seq<State>, k: nat, m: nat, id: WorkstationId)
    requires k <= m < |states| && id in states[k].rows && forall q :: k <= q < m ==> KeptDesired(states[q], states[q+1], id)
    ensures KeptDesired(states[k], states[m], id)
  {
    if k < m {
      KeptThroughout(states, k, m - 1, id);
      assert KeptDesired(states[m-1], states[m-1+1], id);
    }
  }

  /** Without a member asking, the desired state of a row is what it was as long as the row exists. */
  lemma DesiredStands(states: seq<State>, steps: seq<Step>, k: nat, m: nat, id: WorkstationId)
    requires IsRun(states, steps) && k <= m < |states| && id in states[k].rows && id in states[m].rows
    requires forall q :: k <= q < m ==> !AsksOf(steps[q], id)
    ensures states[m].rows[id].desired == states[k].rows[id].desired
  {
    forall q | k <= q < m ensures KeptDesired(states[q], states[q+1], id) {
      StillInTable(states, steps, k, q, m, id);
      StillInTable(states, steps, k, q + 1, m, id);
      DesiredStep(states, steps, q, id);
    }
    KeptThroughout(states, k, m, id);
  }

  lemma StillInTable(states: seq<State>, steps: seq<Step>, k: nat, q: nat, m: nat, id: WorkstationId)
    requires IsRun(states, steps) && k <= q <= m < |states| && id in states[k].rows && id in states[m].rows
    ensures id in states[q].rows
  {
    RowsAgeOneWay(states, steps, k, q, id);
  }

  lemma DesiredStep(states: seq<State>, steps: seq<Step>, q: nat, id: WorkstationId)
    requires IsRun(states, steps) && q < |steps| && id in states[q].rows && id in states[q+1].rows && !AsksOf(steps[q], id)
    ensures states[q+1].rows[id].desired == states[q].rows[id].desired
  {
    RunsKeepInv(states, steps, q);
    OthersKeepDesired(states[q], steps[q], id);
  }

  /** What the owner's wish does to the table: exactly what it should to the row, and nothing to the others. */
  lemma WishIsRecorded(states: seq<State>, steps: seq<Step>, k: nat, member: MemberId, id: WorkstationId, wish: Desired)
    requires IsRun(states, steps) && k < |steps| && id in states[k].rows && states[k].rows[id].member == member
    requires states[k].rows[id].desired != Desired.Deleted && !wish.Unknown?
    requires steps[k] == MemberSetsDesired(member, id, wish) || (steps[k] == MemberEnsuresRunning(member, id) && wish == Desired.Running)
    ensures id in states[k+1].rows && Wished(states[k].rows[id], wish, states[k+1].rows[id])
    ensures OthersSame(states[k].rows, states[k+1].rows, id)
  {
    ReleaseStatesAgree(states, steps, k, id);
    RowByFields(states[k].rows[id], wish, "", Power.Error);
    assert states[k+1] == Next(states[k], steps[k]);
  }

  /**
    A member's wish stands: from the owner asking for a state, on a row that is not released, until the next member
    asks something of that row, the row's desired state is that wish.
  */
  lemma WishStands(states: seq<State>, steps: seq<Step>, k: nat, m: nat, member: MemberId, id: WorkstationId, wish: Desired)
    requires IsRun(states, steps) && k < m < |states| && id in states[k].rows && states[k].rows[id].member == member
    requires states[k].rows[id].desired != Desired.Deleted && !wish.Unknown?
    requires steps[k] == MemberSetsDesired(member, id, wish) || (steps[k] == MemberEnsuresRunning(member, id) && wish == Desired.Running)
    requires id in states[m].rows && forall q :: k < q < m ==> !AsksOf(steps[q], id)
    ensures states[m].rows[id].desired == wish
  {
    WishIsRecorded(states, steps, k, member, id, wish);
    DesiredStands(states, steps, k + 1, m, id);
  }

  // What a worker is told.

  /** The worker has received an authoritative response and not yet applied it. */
  predicate Answered(s: State, w: WorkerId) {
    Alive(s, w) && ProcOf(s, w).phase.Awaiting? && ProcOf(s, w).phase.response.Some?
  }

  function Answer(s: State, w: WorkerId): map<WorkstationId, Item>
    requires Answered(s, w)
  {
    ProcOf(s, w).phase.response.value
  }

  /** The response lists the worker's rows, each as it is in the table. */
  ghost predicate ListsRows(answer: map<WorkstationId, Item>, rows: Rows, w: WorkerId) {
    && (forall id :: id in answer <==> id in rows && rows[id].worker == w)
    && (forall id :: id in answer ==>
          answer[id].vmName == rows[id].vmName && answer[id].slot == rows[id].slot && answer[id].desired == rows[id].desired)
  }

  lemma ComputedListsRows(s: State, w: WorkerId)
    requires Guard(s, ComputeResponse(w))
    ensures var s' := Next(s, ComputeResponse(w)); Answered(s', w) && ListsRows(Answer(s', w), s.rows, w)
  {
  }

  lemma OnlyComputingAnswers(s: State, step: Step, w: WorkerId)
    requires Guard(s, step) && ByWorker(step, w) && step != ComputeResponse(w)
    ensures !Answered(Next(s, step), w)
  {
  }

  lemma NewWorkerIsSilent(s: State, step: Step, w: WorkerId)
    requires Guard(s, step) && w !in s.hosts && !ByWorker(step, w)
    ensures !Answered(Next(s, step), w)
  {
  }

  lemma AnswerWaits(s: State, step: Step, w: WorkerId)
    requires HostsOk(s) && Guard(s, step) && step != ComputeResponse(w) && Answered(Next(s, step), w)
    ensures Answered(s, w) && Answer(s, w) == Answer(Next(s, step), w)
  {
    if ByWorker(step, w) {
      OnlyComputingAnswers(s, step, w);
    } else if w !in s.hosts {
      NewWorkerIsSilent(s, step, w);
    } else {
      ElsewhereKeepsProc(s, step, w);
    }
  }

  /** The last response computed for the worker before state `m` was computed in step `i`. */
  ghost predicate LastComputed(steps: seq<Step>, i: nat, m: nat, w: WorkerId) {
    i < m <= |steps| && steps[i] == ComputeResponse(w) && forall q :: i < q < m ==> steps[q] != ComputeResponse(w)
  }

  /** An answer that is there now was there before. */
  predicate AnswerKept(s: State, s': State, w: WorkerId) {
    Answered(s', w) ==> Answered(s, w) && Answer(s, w) == Answer(s', w)
  }

  lemma {:induction false} AnswerKeptThroughout(states: seq<State>, i: nat, m: nat, w: WorkerId)
    requires i <= m < |states| && forall q :: i <= q < m ==> AnswerKept(states[q], states[q+1], w)
    ensures AnswerKept(states[i], states[m], w)
  {
    if i < m {
      AnswerKeptThroughout(states, i, m - 1, w);
      assert AnswerKept(states[m-1], states[m-1+1], w);
    }
  }

  lemma AnswerIsTable(states: seq<State>, steps: seq<Step>, i: nat, m: nat, w: WorkerId)
    requires IsRun(states, steps) && m < |states| && LastComputed(steps, i, m, w) && Answered(states[m], w)
    ensures ListsRows(Answer(states[m], w), states[i].rows, w)
  {
    forall q | i + 1 <= q < m ensures AnswerKept(states[q], states[q+1], w) {
      AnswerStep(states, steps, q, w);
    }
    AnswerKeptThroughout(states, i + 1, m, w);
    ComputedListsRows(states[i], w);
  }

  lemma AnswerStep(states: seq<State>, steps: seq<Step>, q: nat, w: WorkerId)
    requires IsRun(states, steps) && q < |steps| && steps[q] != ComputeResponse(w)
    ensures AnswerKept(states[q], states[q+1], w)
  {
    RunsKeepInv(states, steps, q);
    if Answered(states[q+1], w) {
      AnswerWaits(states[q], steps[q], w);
    }
  }

  /** What a runtime becomes when its worker applies a response computed from these rows. */
  ghost predicate ToldByTable(before: Runtimes, rows: Rows, w: WorkerId, id: WorkstationId, after: Runtimes) {
    if id in rows && rows[id].worker == w then
      && id in after && after[id].desired == rows[id].desired
      && (if id in before then SameButDesired(before[id], after[id])
          else after[id] == Runtime(id, rows[id].vmName, rows[id].slot, rows[id].desired, Power.Stopped, None, false))
    else if id in before then
      id in after && after[id].desired == Desired.Deleted && SameButDesired(before[id], after[id])
    else
      id !in after
  }

  lemma ApplyTells(s: State, w: WorkerId, rows: Rows, id: WorkstationId)
    requires Guard(s, ApplyResponse(w)) && ListsRows(Answer(s, w), rows, w)
    ensures var s' := Next(s, ApplyResponse(w));
            Alive(s', w) && ToldByTable(ProcOf(s, w).runtimes, rows, w, id, ProcOf(s', w).runtimes)
  {
  }

  /**
    Applying a response tells every runtime of the worker exactly what the table said when the response was computed:
    the desired state of its row, "deleted" without one; new rows get a stopped runtime; and nothing else changes.
  */
  lemma ResponseTellsTable(states: seq<State>, steps: seq<Step>, i: nat, k: nat, w: WorkerId, id: WorkstationId)
    requires IsRun(states, steps) && k < |steps| && LastComputed(steps, i, k, w) && steps[k] == ApplyResponse(w)
    ensures Alive(states[k], w) && Alive(states[k+1], w)
    ensures ToldByTable(ProcOf(states[k], w).runtimes, states[i].rows, w, id, ProcOf(states[k+1], w).runtimes)
  {
    AnswerIsTable(states, steps, i, k, w);
    ApplyTells(states[k], w, states[i].rows, id);
  }

  // Outages and crashes.

  /** A heartbeat that fails or is skipped tells nobody anything: runtimes, desired ids, disk and table are as before. */
  lemma OutageTellsNothing(states: seq<State>, steps: seq<Step>, k: nat, w: WorkerId)
    requires IsRun(states, steps) && k < |steps| && (steps[k] == HeartbeatFails(w) || steps[k] == SkipHeartbeat(w))
    ensures Alive(states[k], w) && Alive(states[k+1], w) && states[k+1].rows == states[k].rows && states[k+1].net == states[k].net
    ensures ProcOf(states[k+1], w).runtimes == ProcOf(states[k], w).runtimes
    ensures ProcOf(states[k+1], w).desiredIDs == ProcOf(states[k], w).desiredIDs
    ensures states[k+1].hosts[w].disk == states[k].hosts[w].disk
    ensures ProcOf(states[k+1], w).phase == Reconciling(ProcOf(states[k], w).runtimes.Keys, None)
  {
    assert states[k+1] == Next(states[k], steps[k]);
  }

  /** A crash loses everything the process knew and nothing on disk; a new process starts knowing nothing. */
  lemma CrashForgets(states: seq<State>, steps: seq<Step>, k: nat, w: WorkerId)
    requires IsRun(states, steps) && k < |steps| && (steps[k] == Crash(w) || steps[k] == StartWorker(w))
    ensures w in states[k].hosts && w in states[k+1].hosts && states[k+1].hosts[w].disk == states[k].hosts[w].disk
    ensures states[k+1].rows == states[k].rows && states[k+1].net == states[k].net
    ensures steps[k] == Crash(w) ==> Alive(states[k], w) && !Alive(states[k+1], w)
    ensures steps[k] == StartWorker(w) ==>
      !Alive(states[k], w) && Alive(states[k+1], w) && ProcOf(states[k+1], w) == Proc(map[], {}, Reconciling({}, None))
  {
    assert states[k+1] == Next(states[k], steps[k]);
  }

  // What a worker reports.

  /** The reports a worker has taken and the server has not yet handled. */
  function Pending(p: Proc): seq<Report> {
    match p.phase
    case Reconciling(_, _) => []
    case Snapshot(payload) => payload
    case Awaiting(unhandled, _) => unhandled
  }

  function PendingAt(s: State, w: WorkerId): seq<Report> {
    if Alive(s, w) then Pending(ProcOf(s, w)) else []
  }

  lemma SnapshotReports(s: State, w: WorkerId, payload: seq<Report>, r: Report)
    requires Guard(s, TakeSnapshot(w, payload)) && r in PendingAt(Next(s, TakeSnapshot(w, payload)), w)
    ensures var s' := Next(s, TakeSnapshot(w, payload)); HasRuntime(s', w, r.id) && ProcOf(s', w).runtimes[r.id].state == r.power
  {
  }

  lemma OwnStepKeepsPending(s: State, step: Step, w: WorkerId, r: Report)
    requires Guard(s, step) && ByWorker(step, w) && !step.TakeSnapshot? && r in PendingAt(Next(s, step), w)
    ensures r in PendingAt(s, w)
  {
  }

  lemma NewWorkerReportsNothing(s: State, step: Step, w: WorkerId)
    requires Guard(s, step) && w !in s.hosts && !ByWorker(step, w)
    ensures PendingAt(Next(s, step), w) == []
  {
  }

  lemma PendingWaits(s: State, step: Step, w: WorkerId, r: Report)
    requires HostsOk(s) && Guard(s, step) && !(step.TakeSnapshot? && step.worker == w) && r in PendingAt(Next(s, step), w)
    ensures r in PendingAt(s, w)
  {
    if ByWorker(step, w) {
      OwnStepKeepsPending(s, step, w, r);
    } else if w !in s.hosts {
      NewWorkerReportsNothing(s, step, w);
    } else {
      ElsewhereKeepsProc(s, step, w);
    }
  }

  /** Step `j` took the snapshot in which the workstation's runtime had this state. */
  ghost predicate TakenIn(states: seq<State>, steps: seq<Step>, j: nat, w: WorkerId, r: Report)
    requires |states| == |steps| + 1
  {
    && j < |steps| && steps[j].TakeSnapshot? && steps[j].worker == w
    && HasRuntime(states[j+1], w, r.id) && ProcOf(states[j+1], w).runtimes[r.id].state == r.power
  }

  lemma {:induction false} PendingWasTaken(states: seq<State>, steps: seq<Step>, m: nat, w: WorkerId, r: Report) returns (j: nat)
    requires IsRun(states, steps) && m < |states| && r in PendingAt(states[m], w)
    ensures j < m && TakenIn(states, steps, j, w, r)
  {
    var taken := PendingStep(states, steps, m - 1, w, r);
    if taken {
      j := m - 1;
    } else {
      j := PendingWasTaken(states, steps, m - 1, w, r);
    }
  }

  lemma PendingStep(states: seq<State>, steps: seq<Step>, q: int, w: WorkerId, r: Report) returns (taken: bool)
    requires IsRun(states, steps) && -1 <= q < |steps| && r in PendingAt(states[q+1], w)
    ensures 0 <= q
    ensures if taken then TakenIn(states, steps, q, w, r) else r in PendingAt(states[q], w)
  {
    taken := steps[q].TakeSnapshot? && steps[q].worker == w;
    if taken {
      SnapshotReports(states[q], w, steps[q].payload, r);
    } else {
      RunsKeepInv(states, steps, q);
      PendingWaits(states[q], steps[q], w, r);
    }
  }

  /**
    A stored report shows in its row: the power its runtime had in the worker's snapshot, and nothing else of the row has
    changed. A released row goes on "deleted" and otherwise stays as it is; no other row changes.
  */
  lemma ReportShows(states: seq<State>, steps: seq<Step>, k: nat, w: WorkerId) returns (r: Report, j: nat)
    requires IsRun(states, steps) && k < |steps| && steps[k] == HandleReport(w, true)
    ensures r in PendingAt(states[k], w) && j < k && TakenIn(states, steps, j, w, r)
    ensures OthersSame(states[k].rows, states[k+1].rows, r.id)
    ensures r.id in states[k].rows && states[k].rows[r.id].desired != Desired.Deleted ==>
      r.id in states[k+1].rows && Reported(states[k].rows[r.id], r.power, states[k+1].rows[r.id])
    ensures r.id in states[k].rows && states[k].rows[r.id].desired == Desired.Deleted ==>
      if r.power == Power.Deleted then r.id !in states[k+1].rows
      else r.id in states[k+1].rows && states[k+1].rows[r.id] == states[k].rows[r.id]
  {
    r := ProcOf(states[k], w).phase.unhandled[0];
    j := PendingWasTaken(states, steps, k, w, r);
    RunsKeepInv(states, steps, k);
    HandledReport(states[k], w, r);
  }

  lemma HandledReport(s: State, w: WorkerId, r: Report)
    requires Inv(s) && Guard(s, HandleReport(w, true)) && r == ProcOf(s, w).phase.unhandled[0]
    ensures var s' := Next(s, HandleReport(w, true));
            && OthersSame(s.rows, s'.rows, r.id)
            && (r.id in s.rows && s.rows[r.id].desired != Desired.Deleted ==> r.id in s'.rows && Reported(s.rows[r.id], r.power, s'.rows[r.id]))
            && (r.id in s.rows && s.rows[r.id].desired == Desired.Deleted ==>
                  if r.power == Power.Deleted then r.id !in s'.rows else r.id in s'.rows && s'.rows[r.id] == s.rows[r.id])
  {
    ProcIsOk(s, w);
    assert ReportOk(s, w, r);
    if r.id in s.rows {
      RowByFields(s.rows[r.id], Desired.Running, w, r.power);
    }
  }

  // What a claim inserts.

  predicate OfClaim(step: Step) {
    step.ClaimLock? || step.ClaimReadWorkers? || step.ClaimReadSlots? || step.ClaimInsert? || step.ClaimAbort?
  }

  lemma OthersKeepClaim(s: State, step: Step)
    requires Guard(s, step) && !OfClaim(step)
    ensures Next(s, step).claim == s.claim
  {
  }

  predicate SameClaim(s: State, s': State) {
    s'.claim == s.claim
  }

  lemma {:induction false} SameClaimThroughout(states: seq<State>, a: nat, b: nat)
    requires a <= b < |states| && forall q :: a <= q < b ==> SameClaim(states[q], states[q+1])
    ensures SameClaim(states[a], states[b])
  {
    if a < b {
      SameClaimThroughout(states, a, b - 1);
      assert SameClaim(states[b-1], states[b-1+1]);
    }
  }

  lemma ClaimWaits(states: seq<State>, steps: seq<Step>, a: nat, b: nat)
    requires IsRun(states, steps) && a <= b < |states| && forall q :: a <= q < b ==> !OfClaim(steps[q])
    ensures states[b].claim == states[a].claim
  {
    forall q | a <= q < b ensures SameClaim(states[q], states[q+1]) {
      ClaimStepOf(states, steps, q);
    }
    SameClaimThroughout(states, a, b);
  }

  lemma ClaimStepOf(states: seq<State>, steps: seq<Step>, q: nat)
    requires IsRun(states, steps) && q < |steps| && !OfClaim(steps[q])
    ensures SameClaim(states[q], states[q+1])
  {
    OthersKeepClaim(states[q], steps[q]);
  }

  /** Nothing of a claim happens strictly between these two steps. */
  ghost predicate NextOfClaim(steps: seq<Step>, a: nat, b: nat) {
    a < b < |steps| && forall q :: a < q < b ==> !OfClaim(steps[q])
  }

  /**
    A claim does what was asked: whatever happens between its four statements, it inserts a row for the member that locked,
    at a placement selected for the preference given then, among the workers it read, from the slots taken when it read them.
  */
  lemma ClaimDoesWhatWasAsked(states: seq<State>, steps: seq<Step>, lock: nat, read: nat, list: nat, insert: nat,
                              member: MemberId, preferred: WorkerId)
    requires IsRun(states, steps) && NextOfClaim(steps, lock, read) && NextOfClaim(steps, read, list) && NextOfClaim(steps, list, insert)
    requires steps[lock] == ClaimLock(member, preferred) && steps[read].ClaimReadWorkers? && steps[list].ClaimReadSlots? && steps[insert].ClaimInsert?
    ensures A.Selects(steps[read].workers, SlotMapOf(states[list]), preferred, A.Chosen(steps[insert].candidate))
    ensures steps[insert].id in states[insert+1].rows
    ensures C.InsertedAt(states[insert+1].rows[steps[insert].id], member, steps[insert].id, steps[insert].candidate)
  {
    ClaimStatements(states, steps, lock);
    ClaimWaits(states, steps, lock + 1, read);
    ClaimStatements(states, steps, read);
    ClaimWaits(states, steps, read + 1, list);
    ClaimStatements(states, steps, list);
    ClaimWaits(states, steps, list + 1, insert);
    ClaimStatements(states, steps, insert);
    ClaimInsertsRow(states, steps, insert);
  }

  /** What each statement of a claim leaves for the next. */
  lemma ClaimStatements(states: seq<State>, steps: seq<Step>, k: nat)
    requires IsRun(states, steps) && k < |steps|
    ensures steps[k].ClaimLock? ==> states[k+1].claim == Locked(steps[k].member, steps[k].preferred)
    ensures steps[k].ClaimReadWorkers? ==>
      states[k].claim.Locked? && states[k+1].claim == SawWorkers(states[k].claim.member, states[k].claim.preferred, steps[k].workers)
    ensures steps[k].ClaimReadSlots? ==>
      && states[k].claim.SawWorkers?
      && states[k+1].claim == SawSlots(states[k].claim.member, states[k].claim.preferred, states[k].claim.workers, SlotMapOf(states[k]))
    ensures steps[k].ClaimInsert? ==>
      && states[k].claim.SawSlots?
      && A.Selects(states[k].claim.workers, states[k].claim.existing, states[k].claim.preferred, A.Chosen(steps[k].candidate))
  {
    assert Guard(states[k], steps[k]) && states[k+1] == Next(states[k], steps[k]);
  }

  /** The row a claim inserts in the protocol is the row the claiming transaction inserts. */
  lemma ClaimInsertsRow(states: seq<State>, steps: seq<Step>, k: nat)
    requires IsRun(states, steps) && k < |steps| && steps[k].ClaimInsert?
    ensures states[k].claim.SawSlots? && steps[k].id !in states[k].rows && steps[k].id in states[k+1].rows
    ensures states[k+1].rows[steps[k].id] == C.NewRow(states[k].claim.member, steps[k].id, steps[k].candidate)
    ensures C.InsertedAt(states[k+1].rows[steps[k].id], states[k].claim.member, steps[k].id, steps[k].candidate)
    ensures OthersSame(states[k].rows, states[k+1].rows, steps[k].id)
  {
    RunsKeepInv(states, steps, k);
    assert states[k+1] == Next(states[k], steps[k]);
  }
}
