/**
  Bounded progress of a release: while the worker stays up and the commands and updates for the workstation
  succeed, two completed heartbeats begun after the release remove its row, whatever else runs in between.
*/
module ProtocolProgress {
  import opened Types
  import opened Table
  import opened Runtime
  import opened Manager
  import opened Protocol
  import opened ProtocolInvariant
  import opened ProtocolSafety
  import A = Allocator

  /** The heartbeats of one worker seen since some point: is one open, and how many completed authoritatively. */
  datatype Beats = Beats(open: bool, done: nat)

  function CountBeat(beats: Beats, step: Step, w: WorkerId): Beats {
    match step
    case SendHeartbeat(v) => if v == w then beats.(open := true) else beats
    case ApplyResponse(v) => if v == w then Beats(false, if beats.open then beats.done + 1 else beats.done) else beats
    case HeartbeatFails(v) => if v == w then beats.(open := false) else beats
    case _ => beats
  }

  /** The heartbeats of `w` begun and completed in steps i..j. */
  function BeatsSince(steps: seq<Step>, w: WorkerId, i: nat, j: nat): Beats
    requires i <= j <= |steps|
    decreases j
  {
    if i == j then Beats(false, 0) else CountBeat(BeatsSince(steps, w, i, j - 1), steps[j-1], w)
  }

  /** Nothing goes wrong for this workstation in this step: no crash, its commands succeed, its report is stored. */
  ghost predicate Smooth(s: State, step: Step, w: WorkerId, id: WorkstationId)
    requires Guard(s, step)
  {
    && step != Crash(w)
    && (step.RunCommand? && step.worker == w && ProcOf(s, w).phase.current.value.id == id ==> step.answer.ok)
    && (step.HandleReport? && step.worker == w && ProcOf(s, w).phase.unhandled[0].id == id ==> step.stored)
  }

  /** The runtime is deleted, being deleted, or still to be reconciled in this round. */
  predicate Underway(p: Proc, id: WorkstationId)
    requires p.phase.Reconciling? && id in p.runtimes
  {
    || id in p.phase.todo
    || (p.phase.current.Some? && p.phase.current.value.id == id && DeletePath(p.phase.current.value.pc))
    || p.runtimes[id].state == Power.Deleted
  }

  /** On its way to the report that removes the row. */
  predicate Nearly(p: Proc, id: WorkstationId)
    requires id in p.runtimes
  {
    match p.phase
    case Reconciling(todo, current) => Underway(p, id)
    case Snapshot(payload) => Report(id, Power.Deleted) in payload
    case Awaiting(unhandled, response) => Report(id, Power.Deleted) in unhandled && response.None?
  }

  ghost predicate AfterFirst(s: State, p: Proc, id: WorkstationId) {
    && (id in s.rows ==>
          id in p.runtimes && p.runtimes[id].desired == Desired.Deleted && id in p.desiredIDs && Nearly(p, id))
    && (p.phase.Awaiting? && p.phase.response.Some? ==> id !in p.phase.response.value)
  }

  ghost predicate AfterSecond(s: State, p: Proc, id: WorkstationId) {
    && id !in s.rows
    && id !in p.desiredIDs
    && (id in p.runtimes ==> p.phase.Reconciling? && p.runtimes[id].desired == Desired.Deleted && Underway(p, id))
  }

  /** What holds at every point after the release, by the number of completed heartbeats. */
  ghost predicate OnTrack(s: State, w: WorkerId, id: WorkstationId, beats: Beats) {
    && Alive(s, w) && id in s.born && s.born[id].worker == w && Condemned(s.rows, id)
    && var p := ProcOf(s, w);
    && (beats.open ==> p.phase.Awaiting?)
    && (beats.done == 0 && beats.open && p.phase.response.Some? ==>
          var desired := p.phase.response.value;
          if id in desired then desired[id].desired == Desired.Deleted else id !in s.rows)
    && (beats.done >= 1 ==> (p.phase.Awaiting? ==> beats.open) && AfterFirst(s, p, id))
    && (beats.done >= 2 ==> AfterSecond(s, p, id))
  }

  /** Steps that leave this worker's process alone keep it on track. */
  lemma ElsewhereKeepsTrack(s: State, s': State, w: WorkerId, id: WorkstationId, beats: Beats)
    requires OnTrack(s, w, id, beats) && Extends(s, s')
    requires w in s'.hosts && s'.hosts[w].proc == s.hosts[w].proc
    ensures OnTrack(s', w, id, beats)
  {
  }

  predicate ByWorker(step: Step, w: WorkerId) {
    || (step.HandleReport? && step.worker == w) || (step.ComputeResponse? && step.worker == w)
    || (step.StartWorker? && step.worker == w) || (step.Crash? && step.worker == w)
    || (step.BeginRuntime? && step.worker == w) || (step.RunCommand? && step.worker == w)
    || (step.TakeSnapshot? && step.worker == w) || (step.SkipHeartbeat? && step.worker == w)
    || (step.SendHeartbeat? && step.worker == w) || (step.ApplyResponse? && step.worker == w)
    || (step.HeartbeatFails? && step.worker == w)
  }

  lemma ElsewhereKeepsProc(s: State, step: Step, w: WorkerId)
    requires Guard(s, step) && w in s.hosts && w in s.pools && !ByWorker(step, w)
    ensures w in Next(s, step).hosts && Next(s, step).hosts[w].proc == s.hosts[w].proc
  {
    if OnServer(step) {
      ServerKeepsHosts(s, step, w);
    }
  }

  lemma BeginKeepsTrack(s: State, w: WorkerId, id: WorkstationId, k: WorkstationId, beats: Beats)
    requires OnTrack(s, w, id, beats) && Guard(s, BeginRuntime(w, k))
    ensures OnTrack(Next(s, BeginRuntime(w, k)), w, id, beats)
  {
  }

  lemma CommandKeepsTrack(s: State, w: WorkerId, id: WorkstationId, answer: Outcome, beats: Beats)
    requires Inv(s) && OnTrack(s, w, id, beats) && Guard(s, RunCommand(w, answer))
    requires Honest(s, RunCommand(w, answer)) && Smooth(s, RunCommand(w, answer), w, id)
    ensures OnTrack(Next(s, RunCommand(w, answer)), w, id, beats)
  {
    CurrentFits(s, w, answer);
    CommandKeepsUnderway(s.hosts[w], id, answer);
  }

  lemma CommandKeepsUnderway(h: Host, id: WorkstationId, answer: Outcome)
    requires h.proc.Some? && h.proc.value.phase.Reconciling? && h.proc.value.phase.current.Some?
    requires h.proc.value.phase.current.value.id in h.proc.value.runtimes
    requires Current(h).pc != Idle && PcFits(Current(h)) && Faithful(Current(h), answer)
    requires h.proc.value.phase.current.value.id == id ==> answer.ok
    ensures var p := h.proc.value;
            var h' := Moved(h, Command(Current(h), answer));
            && h'.proc.Some?
            && var p' := h'.proc.value;
            && p'.runtimes.Keys == p.runtimes.Keys && p'.desiredIDs == p.desiredIDs && p'.phase.Reconciling?
            && (id in p.runtimes ==> p'.runtimes[id].desired == p.runtimes[id].desired)
            && (id in p.runtimes && p.runtimes[id].desired == Desired.Deleted && Underway(p, id) ==> Underway(p', id))
  {
    CommandIsSafe(Current(h), answer);
    DeletePathEndsDeleted(Current(h), answer);
  }

  /** On success a delete goes on or ends in "deleted". */
  lemma DeletePathEndsDeleted(m: Micro, o: Outcome)
    requires m.pc != Idle
    ensures DeletePath(m.pc) && o.ok ==> DeletePath(Command(m, o).pc) || (Command(m, o).pc == Idle && Command(m, o).rt.state == Power.Deleted)
  {
  }

  lemma SnapshotKeepsTrack(s: State, w: WorkerId, id: WorkstationId, payload: seq<Report>, beats: Beats)
    requires OnTrack(s, w, id, beats) && Guard(s, TakeSnapshot(w, payload))
    ensures OnTrack(Next(s, TakeSnapshot(w, payload)), w, id, beats)
  {
  }

  lemma HandleKeepsTrack(s: State, w: WorkerId, id: WorkstationId, stored: bool, beats: Beats)
    requires Inv(s) && OnTrack(s, w, id, beats) && Guard(s, HandleReport(w, stored)) && Smooth(s, HandleReport(w, stored), w, id)
    ensures OnTrack(Next(s, HandleReport(w, stored)), w, id, beats)
  {
    StepExtends(s, HandleReport(w, stored));
  }

  lemma ComputeKeepsTrack(s: State, w: WorkerId, id: WorkstationId, beats: Beats)
    requires RowsOk(s) && OnTrack(s, w, id, beats) && Guard(s, ComputeResponse(w))
    ensures OnTrack(Next(s, ComputeResponse(w)), w, id, beats)
  {
  }

  lemma ApplyKeepsTrack(s: State, w: WorkerId, id: WorkstationId, beats: Beats)
    requires OnTrack(s, w, id, beats) && Guard(s, ApplyResponse(w))
    ensures OnTrack(Next(s, ApplyResponse(w)), w, id, CountBeat(beats, ApplyResponse(w), w))
  {
  }

  lemma OtherPhasesKeepTrack(s: State, w: WorkerId, id: WorkstationId, step: Step, beats: Beats)
    requires OnTrack(s, w, id, beats) && Guard(s, step)
    requires step == SkipHeartbeat(w) || step == SendHeartbeat(w) || step == HeartbeatFails(w)
    ensures OnTrack(Next(s, step), w, id, CountBeat(beats, step, w))
  {
  }

  lemma StepKeepsTrack(s: State, step: Step, w: WorkerId, id: WorkstationId, beats: Beats)
    requires Inv(s) && Guard(s, step) && Honest(s, step) && Smooth(s, step, w, id)
    requires OnTrack(s, w, id, beats)
    ensures OnTrack(Next(s, step), w, id, CountBeat(beats, step, w))
  {
    if !ByWorker(step, w) {
      ElsewhereKeepsProc(s, step, w);
      StepExtends(s, step);
      ElsewhereKeepsTrack(s, Next(s, step), w, id, beats);
    } else {
      OwnStepKeepsTrack(s, step, w, id, beats);
    }
  }

  lemma OwnStepKeepsTrack(s: State, step: Step, w: WorkerId, id: WorkstationId, beats: Beats)
    requires Inv(s) && Guard(s, step) && Honest(s, step) && Smooth(s, step, w, id) && ByWorker(step, w)
    requires OnTrack(s, w, id, beats)
    ensures OnTrack(Next(s, step), w, id, CountBeat(beats, step, w))
  {
    if step.RunCommand? {
      CommandKeepsTrack(s, w, id, step.answer, beats);
    } else if step.HandleReport? {
      HandleKeepsTrack(s, w, id, step.stored, beats);
    } else if step.ComputeResponse? {
      ComputeKeepsTrack(s, w, id, beats);
    } else {
      LoopStepKeepsTrack(s, step, w, id, beats);
    }
  }

  lemma LoopStepKeepsTrack(s: State, step: Step, w: WorkerId, id: WorkstationId, beats: Beats)
    requires Guard(s, step) && OnTrack(s, w, id, beats) && ByWorker(step, w) && step != Crash(w)
    requires !step.RunCommand? && !step.HandleReport? && !step.ComputeResponse?
    ensures OnTrack(Next(s, step), w, id, CountBeat(beats, step, w))
  {
    if step.BeginRuntime? {
      BeginKeepsTrack(s, w, id, step.id, beats);
    } else if step.TakeSnapshot? {
      SnapshotKeepsTrack(s, w, id, step.payload, beats);
    } else if step.ApplyResponse? {
      ApplyKeepsTrack(s, w, id, beats);
    } else {
      OtherPhasesKeepTrack(s, w, id, step, beats);
    }
  }

  ghost predicate SmoothRun(states: seq<State>, steps: seq<Step>, i: nat, j: nat, w: WorkerId, id: WorkstationId)
    requires IsRun(states, steps)
  {
    i <= j < |states| && forall k :: i <= k < j ==> Smooth(states[k], steps[k], w, id)
  }

  lemma {:induction false} ReleaseStaysOnTrack(states: seq<State>, steps: seq<Step>, i: nat, j: nat, w: WorkerId, id: WorkstationId)
    requires IsRun(states, steps) && SmoothRun(states, steps, i, j, w, id)
    requires id in states[i].rows && states[i].rows[id].desired == Desired.Deleted
    requires states[i].rows[id].worker == w && Alive(states[i], w)
    ensures OnTrack(states[j], w, id, BeatsSince(steps, w, i, j))
  {
    RunsKeepInv(states, steps, i);
    if i < j {
      ReleaseStaysOnTrack(states, steps, i, j - 1, w, id);
      RunsKeepInv(states, steps, j - 1);
      StepKeepsTrack(states[j-1], steps[j-1], w, id, BeatsSince(steps, w, i, j - 1));
    }
  }

  /** How many more heartbeats a release can need: none once the row is gone, one once its runtime is told. */
  function HeartbeatsLeft(s: State, w: WorkerId, id: WorkstationId): nat {
    if id !in s.rows then 0
    else if HasRuntime(s, w, id) && ProcOf(s, w).runtimes[id].desired == Desired.Deleted then 1
    else 2
  }

  /**
    Bounded release. Each completed heartbeat begun after the release lowers what is left, so after two the row is
    gone; and once the round after that has been reconciled, the worker has dropped the runtime.
  */
  lemma ReleaseCompletes(states: seq<State>, steps: seq<Step>, i: nat, j: nat, w: WorkerId, id: WorkstationId)
    requires IsRun(states, steps) && SmoothRun(states, steps, i, j, w, id)
    requires id in states[i].rows && states[i].rows[id].desired == Desired.Deleted
    requires states[i].rows[id].worker == w && Alive(states[i], w)
    ensures var done := BeatsSince(steps, w, i, j).done;
            && HeartbeatsLeft(states[j], w, id) <= (if done >= 2 then 0 else 2 - done)
            && (done >= 2 ==> id !in states[j].rows)
            && (done >= 2 && Alive(states[j], w) && !ProcOf(states[j], w).phase.Reconciling? ==> !HasRuntime(states[j], w, id))
  {
    ReleaseStaysOnTrack(states, steps, i, j, w, id);
  }

  lemma RemovalTakesOneRow(s: State, step: Step, id: WorkstationId)
    requires Guard(s, step) && id in s.rows && id !in Next(s, step).rows
    ensures Next(s, step).rows == s.rows - {id}
  {
  }

  /** The slot of a removed row is free in the state right after its removal. */
  lemma RemovedSlotIsFree(states: seq<State>, steps: seq<Step>, i: nat, id: WorkstationId)
    requires IsRun(states, steps) && i < |steps|
    requires id in states[i].rows && id !in states[i+1].rows
    ensures states[i].rows[id].slot !in SlotsIn(states[i+1].rows, states[i].rows[id].worker)
  {
    RunsKeepInv(states, steps, i);
    RemovalTakesOneRow(states[i], steps[i], id);
  }

  lemma {:induction false} RemovalBetween(states: seq<State>, i: nat, j: nat, id: WorkstationId) returns (k: nat)
    requires i <= j < |states| && id in states[i].rows && id !in states[j].rows
    ensures i <= k < j && id in states[k].rows && id !in states[k+1].rows
  {
    if id in states[j-1].rows {
      k := j - 1;
    } else {
      k := RemovalBetween(states, i, j - 1, id);
    }
  }

  /** A claim that prefers the worker, while it is schedulable, gets it, with a slot no larger than `slot`. */
  ghost predicate Claimable(s: State, w: WorkerId, slot: int) {
    forall workers: seq<A.Worker>, outcome: A.Selection ::
      ReadsWorkers(s, workers, w) && A.Selects(workers, SlotMapOf(s), w, outcome) ==>
        outcome.Chosen? && outcome.candidate.worker == w && 0 <= outcome.candidate.slot <= slot
  }

  /** What the second step of a claim may read, with this worker schedulable. */
  ghost predicate ReadsWorkers(s: State, workers: seq<A.Worker>, w: WorkerId) {
    && (forall x :: x in workers ==> x.id in s.pools && s.pools[x.id] == x.poolSize)
    && exists x :: x in workers && x.id == w
  }

  /** What its third step reads. */
  function SlotMapOf(s: State): A.SlotMap {
    map w | w in s.pools :: SlotsIn(s.rows, w)
  }

  lemma FreeSlotIsClaimable(s: State, w: WorkerId, slot: int)
    requires w != "" && w in s.pools && 0 <= slot < s.pools[w] && slot !in SlotsIn(s.rows, w)
    ensures Claimable(s, w, slot)
  {
    forall workers: seq<A.Worker>, outcome: A.Selection | ReadsWorkers(s, workers, w) && A.Selects(workers, SlotMapOf(s), w, outcome)
      ensures outcome.Chosen? && outcome.candidate.worker == w && 0 <= outcome.candidate.slot <= slot
    {
      assert A.Occupied(SlotMapOf(s), w) == SlotsIn(s.rows, w);
      assert A.Free(A.Worker(w, s.pools[w]), SlotsIn(s.rows, w), slot);
      forall i | A.FirstNamed(workers, w, i) ensures workers[i] == A.Worker(w, s.pools[w]) {
        assert workers[i] in workers;
      }
    }
  }

  /**
    A release frees its slot: between the release and the second completed heartbeat lies the step that removes the
    row, and right after it the slot can be claimed.
  */
  lemma ReleaseFreesSlot(states: seq<State>, steps: seq<Step>, i: nat, j: nat, w: WorkerId, id: WorkstationId) returns (k: nat)
    requires IsRun(states, steps) && SmoothRun(states, steps, i, j, w, id)
    requires id in states[i].rows && states[i].rows[id].desired == Desired.Deleted
    requires states[i].rows[id].worker == w && Alive(states[i], w) && BeatsSince(steps, w, i, j).done >= 2
    ensures i <= k < j && id in states[k].rows && id !in states[k+1].rows
    ensures w != "" ==> Claimable(states[k+1], w, states[i].rows[id].slot)
  {
    ReleaseCompletes(states, steps, i, j, w, id);
    k := RemovalBetween(states, i, j, id);
    RemovedSlotIsFree(states, steps, k, id);
    SlotStays(states, steps, i, k, id);
    if w != "" {
      FreeSlotIsClaimable(states[k+1], w, states[i].rows[id].slot);
    }
  }

  lemma SlotStays(states: seq<State>, steps: seq<Step>, i: nat, k: nat, id: WorkstationId)
    requires IsRun(states, steps) && i <= k < |steps| && id in states[i].rows && id in states[k].rows
    ensures SamePlacement(states[i].rows[id], states[k].rows[id])
    ensures var row := states[i].rows[id]; row.worker in states[k+1].pools && 0 <= row.slot < states[k+1].pools[row.worker]
  {
    RowsAgeOneWay(states, steps, i, k, id);
    PlacementsStaySound(states, steps, k);
    PoolsStay(states, steps, k, states[i].rows[id].worker);
  }

  lemma PoolsStay(states: seq<State>, steps: seq<Step>, k: nat, w: WorkerId)
    requires IsRun(states, steps) && k < |steps| && w in states[k].pools
    ensures w in states[k+1].pools && states[k+1].pools[w] == states[k].pools[w]
  {
    StepKeepsPools(states[k], steps[k], w);
  }

  lemma StepKeepsPools(s: State, step: Step, w: WorkerId)
    requires Guard(s, step) && w in s.pools
    ensures w in Next(s, step).pools && Next(s, step).pools[w] == s.pools[w]
  {
  }
}
