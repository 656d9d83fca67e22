/**
  The workstation lifecycle as one transition system: server transactions, the worker's management loop at
  the granularity of single tart commands, a network that may lose, repeat and delay status reports, and crashes.
*/
module Protocol {
  import opened Types
  import opened Table
  import opened Runtime
  import opened Manager
  import A = Allocator

  /** What a row was given when it was inserted. */
  datatype Birth = Birth(member: MemberId, worker: WorkerId, slot: int, vmName: VMName)

  /** The claim that holds the advisory lock, statement by statement. */
  datatype ClaimTxn =
    | NoClaim
    | Locked(member: MemberId, preferred: WorkerId)
    | SawWorkers(member: MemberId, preferred: WorkerId, workers: seq<A.Worker>)
    | SawSlots(member: MemberId, preferred: WorkerId, workers: seq<A.Worker>, existing: A.SlotMap)

  datatype Busy = Busy(id: WorkstationId, pc: Pc)

  /** Where the management loop is: reconciling, holding a snapshot, or waiting for a heartbeat response. */
  datatype Phase =
    | Reconciling(todo: set<WorkstationId>, current: Option<Busy>)
    | Snapshot(payload: seq<Report>)
    | Awaiting(unhandled: seq<Report>, response: Option<map<WorkstationId, Item>>)

  /** A worker process: everything here is lost in a crash. */
  datatype Proc = Proc(runtimes: Runtimes, desiredIDs: set<WorkstationId>, phase: Phase)

  datatype Host = Host(disk: set<VMName>, proc: Option<Proc>)

  datatype Message = Message(worker: WorkerId, report: Report)

  /**
    `born`, `owner` and `told` are history: every row ever inserted, the row each VM name was made for,
    and the workstations some runtime was ever told to delete.
  */
  datatype State = State(
    pools: map<WorkerId, int>,
    rows: Rows,
    claim: ClaimTxn,
    hosts: map<WorkerId, Host>,
    net: set<Message>,
    born: map<WorkstationId, Birth>,
    owner: map<VMName, WorkstationId>,
    told: set<WorkstationId>
  )

  datatype Step =
    | Register(worker: WorkerId, pool: int)
    | MemberEnsuresRunning(member: MemberId, id: WorkstationId)
    | MemberSetsDesired(member: MemberId, id: WorkstationId, desired: Desired)
    | ClaimLock(member: MemberId, preferred: WorkerId)
    | ClaimReadWorkers(workers: seq<A.Worker>)
    | ClaimReadSlots
    | ClaimInsert(id: WorkstationId, candidate: A.Candidate)
    | ClaimAbort
    | Redeliver(worker: WorkerId, report: Report)
    | HandleReport(worker: WorkerId, stored: bool)
    | ComputeResponse(worker: WorkerId)
    | StartWorker(worker: WorkerId)
    | Crash(worker: WorkerId)
    | BeginRuntime(worker: WorkerId, id: WorkstationId)
    | RunCommand(worker: WorkerId, answer: Outcome)
    | TakeSnapshot(worker: WorkerId, payload: seq<Report>)
    | SkipHeartbeat(worker: WorkerId)
    | SendHeartbeat(worker: WorkerId)
    | ApplyResponse(worker: WorkerId)
    | HeartbeatFails(worker: WorkerId)

  predicate Alive(s: State, w: WorkerId) {
    w in s.hosts && s.hosts[w].proc.Some?
  }

  function ProcOf(s: State, w: WorkerId): Proc
    requires Alive(s, w)
  {
    s.hosts[w].proc.value
  }

  function SetProc(s: State, w: WorkerId, p: Proc): State
    requires w in s.hosts
  {
    s.(hosts := s.hosts[w := s.hosts[w].(proc := Some(p))])
  }

  function SlotsIn(rows: Rows, w: WorkerId): set<int> {
    set id | id in rows && rows[id].worker == w :: rows[id].slot
  }

  /** The runtime whose commands are running, with its VM. */
  function Current(h: Host): Micro
    requires h.proc.Some? && h.proc.value.phase.Reconciling? && h.proc.value.phase.current.Some?
    requires h.proc.value.phase.current.value.id in h.proc.value.runtimes
  {
    var busy := h.proc.value.phase.current.value;
    var rt := h.proc.value.runtimes[busy.id];
    Micro(rt, busy.pc, rt.vmName in h.disk)
  }

  /** The host after its current runtime moved on to `m`. */
  function Moved(h: Host, m: Micro): Host
    requires h.proc.Some? && h.proc.value.phase.Reconciling? && h.proc.value.phase.current.Some?
  {
    var p := h.proc.value;
    var id := p.phase.current.value.id;
    Host(if m.onDisk then h.disk + {m.rt.vmName} else h.disk - {m.rt.vmName},
         Some(p.(runtimes := p.runtimes[id := m.rt],
                 phase := p.phase.(current := if m.pc == Idle then None else Some(Busy(id, m.pc))))))
  }

  /** A payload reports every runtime with its state, and nothing else. */
  ghost predicate PayloadOf(runtimes: Runtimes, payload: seq<Report>) {
    && (forall r :: r in payload ==> r.id in runtimes && r.power == runtimes[r.id].state)
    && (forall id :: id in runtimes ==> Report(id, runtimes[id].state) in payload)
  }

  /** When a step can happen. Ids and VM names are fresh at insertion: they are drawn from random UUIDs. */
  ghost predicate Guard(s: State, step: Step) {
    match step
    case Register(w, pool) => true
    case MemberEnsuresRunning(member, id) => true
    case MemberSetsDesired(member, id, desired) => true
    case ClaimLock(member, preferred) => s.claim.NoClaim?
    case ClaimReadWorkers(workers) =>
      && s.claim.Locked?
      && forall x :: x in workers ==> x.id in s.pools && s.pools[x.id] == x.poolSize
    case ClaimReadSlots => s.claim.SawWorkers?
    case ClaimInsert(id, c) =>
      && s.claim.SawSlots?
      && A.Selects(s.claim.workers, s.claim.existing, s.claim.preferred, A.Chosen(c))
      && id !in s.born && VMNameOf(id) !in s.owner
    case ClaimAbort => !s.claim.NoClaim?
    case Redeliver(w, report) => Message(w, report) in s.net
    case HandleReport(w, stored) =>
      Alive(s, w) && ProcOf(s, w).phase.Awaiting? && ProcOf(s, w).phase.response.None? && ProcOf(s, w).phase.unhandled != []
    case ComputeResponse(w) =>
      Alive(s, w) && ProcOf(s, w).phase.Awaiting? && ProcOf(s, w).phase.response.None? && ProcOf(s, w).phase.unhandled == []
    case StartWorker(w) => w in s.hosts && s.hosts[w].proc.None?
    case Crash(w) => Alive(s, w)
    case BeginRuntime(w, id) =>
      Alive(s, w) && ProcOf(s, w).phase.Reconciling? && ProcOf(s, w).phase.current.None?
      && id in ProcOf(s, w).phase.todo && id in ProcOf(s, w).runtimes
    case RunCommand(w, answer) =>
      Alive(s, w) && ProcOf(s, w).phase.Reconciling? && ProcOf(s, w).phase.current.Some?
      && ProcOf(s, w).phase.current.value.id in ProcOf(s, w).runtimes && ProcOf(s, w).phase.current.value.pc != Idle
    case TakeSnapshot(w, payload) =>
      Alive(s, w) && ProcOf(s, w).phase.Reconciling? && ProcOf(s, w).phase.current.None? && ProcOf(s, w).phase.todo == {}
      && PayloadOf(Prune(ProcOf(s, w).runtimes, ProcOf(s, w).desiredIDs), payload)
    case SkipHeartbeat(w) => Alive(s, w) && ProcOf(s, w).phase.Snapshot?
    case SendHeartbeat(w) => Alive(s, w) && ProcOf(s, w).phase.Snapshot?
    case ApplyResponse(w) => Alive(s, w) && ProcOf(s, w).phase.Awaiting? && ProcOf(s, w).phase.response.Some?
    case HeartbeatFails(w) => Alive(s, w) && ProcOf(s, w).phase.Awaiting?
  }

  /** The loop starts over with every runtime to reconcile. */
  function NextRound(p: Proc): Proc {
    p.(phase := Reconciling(p.runtimes.Keys, None))
  }

  function Deliver(s: State, w: WorkerId, report: Report): State {
    s.(rows := Commit(s.rows, report.id, ReportReply(s.rows, w, report)))
  }

  function ToldDeleted(runtimes: Runtimes): set<WorkstationId> {
    set id | id in runtimes && runtimes[id].desired == Desired.Deleted
  }

  function Inserted(s: State, member: MemberId, id: WorkstationId, name: VMName, c: A.Candidate): State {
    s.(rows := s.rows[id := Row(member, c.worker, c.slot, name, Power.Starting, Desired.Running)],
       born := s.born[id := Birth(member, c.worker, c.slot, name)],
       owner := s.owner[name := id],
       claim := NoClaim)
  }

  ghost function Next(s: State, step: Step): State
    requires Guard(s, step)
  {
    match step
    case Register(w, pool) =>
      // An upsert: the pool size of a known worker is never changed.
      if w in s.pools then s
      else s.(pools := s.pools[w := pool], hosts := s.hosts[w := Host({}, None)])
    case MemberEnsuresRunning(member, id) => s.(rows := Commit(s.rows, id, EnsureRunningReply(s.rows, member, id)))
    case MemberSetsDesired(member, id, desired) => s.(rows := Commit(s.rows, id, SetDesiredReply(s.rows, member, id, desired)))
    case ClaimLock(member, preferred) => s.(claim := Locked(member, preferred))
    case ClaimReadWorkers(workers) => s.(claim := SawWorkers(s.claim.member, s.claim.preferred, workers))
    case ClaimReadSlots =>
      s.(claim := SawSlots(s.claim.member, s.claim.preferred, s.claim.workers, map w | w in s.pools :: SlotsIn(s.rows, w)))
    case ClaimInsert(id, c) => Inserted(s, s.claim.member, id, VMNameOf(id), c)
    case ClaimAbort => s.(claim := NoClaim)
    case Redeliver(w, report) => Deliver(s, w, report)
    case HandleReport(w, stored) =>
      var p := ProcOf(s, w);
      var s' := SetProc(s, w, p.(phase := Awaiting(p.phase.unhandled[1..], None)));
      // A report the database fails to store is logged and skipped.
      if stored then Deliver(s', w, p.phase.unhandled[0]) else s'
    case ComputeResponse(w) =>
      var p := ProcOf(s, w);
      SetProc(s, w, p.(phase := Awaiting([], Some(DesiredFor(s.rows, w)))))
    case StartWorker(w) => SetProc(s, w, Proc(map[], {}, Reconciling({}, None)))
    case Crash(w) => s.(hosts := s.hosts[w := s.hosts[w].(proc := None)])
    case BeginRuntime(w, id) =>
      var p := ProcOf(s, w);
      var (rt, pc) := Begin(p.runtimes[id]);
      SetProc(s, w, p.(runtimes := p.runtimes[id := rt],
                       phase := Reconciling(p.phase.todo - {id}, if pc == Idle then None else Some(Busy(id, pc)))))
    case RunCommand(w, answer) =>
      s.(hosts := s.hosts[w := Moved(s.hosts[w], Command(Current(s.hosts[w]), answer))])
    case TakeSnapshot(w, payload) =>
      var p := ProcOf(s, w);
      SetProc(s, w, p.(runtimes := Prune(p.runtimes, p.desiredIDs), phase := Snapshot(payload)))
    case SkipHeartbeat(w) => SetProc(s, w, NextRound(ProcOf(s, w)))
    case SendHeartbeat(w) =>
      var p := ProcOf(s, w);
      var sent := set r | r in p.phase.payload :: Message(w, r);
      SetProc(s, w, p.(phase := Awaiting(p.phase.payload, None))).(net := s.net + sent)
    case ApplyResponse(w) =>
      var p := ProcOf(s, w);
      var desired := p.phase.response.value;
      var runtimes := ApplyDesired(p.runtimes, desired);
      SetProc(s, w, NextRound(Proc(runtimes, desired.Keys, p.phase))).(told := s.told + ToldDeleted(runtimes))
    case HeartbeatFails(w) => SetProc(s, w, NextRound(ProcOf(s, w)))
  }

  /** No false "absent" from `tart get` while a VM is being deleted. */
  ghost predicate Honest(s: State, step: Step)
    requires Guard(s, step)
  {
    step.RunCommand? ==> Faithful(Current(s.hosts[step.worker]), step.answer)
  }

  ghost predicate Init(s: State) {
    s == State(map[], map[], NoClaim, map[], {}, map[], map[], {})
  }

  /** A run: states joined by steps. */
  ghost predicate IsRun(states: seq<State>, steps: seq<Step>) {
    && |states| == |steps| + 1
    && Init(states[0])
    && forall i :: 0 <= i < |steps| ==> Guard(states[i], steps[i]) && Honest(states[i], steps[i]) && states[i+1] == Next(states[i], steps[i])
  }

  // The inductive invariant.

  predicate KnownDesired(d: Desired) {
    !d.Unknown?
  }

  ghost predicate RowsOk(s: State) {
    forall id :: id in s.rows ==>
      && id in s.born
      && s.born[id] == Birth(s.rows[id].member, s.rows[id].worker, s.rows[id].slot, s.rows[id].vmName)
      && ReleaseConsistent(s.rows[id])
  }

  ghost predicate BirthsOk(s: State) {
    forall id :: id in s.born ==>
      && s.born[id].worker in s.pools
      && 0 <= s.born[id].slot < s.pools[s.born[id].worker]
      && s.born[id].vmName in s.owner && s.owner[s.born[id].vmName] == id
  }

  ghost predicate OwnersOk(s: State) {
    forall n :: n in s.owner ==> s.owner[n] in s.born && s.born[s.owner[n]].vmName == n
  }

  /** The lock holder's reads are still valid: pool sizes never change and no slot is taken behind its back. */
  ghost predicate ClaimOk(s: State) {
    && (s.claim.SawWorkers? || s.claim.SawSlots? ==>
          forall x :: x in s.claim.workers ==> x.id in s.pools && s.pools[x.id] == x.poolSize)
    && (s.claim.SawSlots? ==>
          forall id :: id in s.rows ==> s.rows[id].slot in A.Occupied(s.claim.existing, s.rows[id].worker))
  }

  /** A row goes away only after a runtime was told to delete it, and being told is final. */
  ghost predicate ToldOk(s: State) {
    && (forall id :: id in s.told ==> id in s.born && Condemned(s.rows, id))
    && (forall id :: id in s.born && id !in s.told ==> id in s.rows)
  }

  /** A report about one of the worker's own rows; "deleting" and "deleted" only after being told so. */
  ghost predicate ReportOk(s: State, w: WorkerId, r: Report) {
    && r.id in s.born && s.born[r.id].worker == w
    && (GoingAway(r.power) ==> r.id in s.told)
    && (r.power == Power.Deleted ==> w in s.hosts && s.born[r.id].vmName !in s.hosts[w].disk)
  }

  ghost predicate NetOk(s: State) {
    forall m :: m in s.net ==> ReportOk(s, m.worker, m.report)
  }

  /** Every VM on the disk still has its row, on this worker. */
  ghost predicate DiskOk(s: State, w: WorkerId, disk: set<VMName>) {
    forall n :: n in disk ==> n in s.owner && s.owner[n] in s.rows && s.rows[s.owner[n]].worker == w
  }

  ghost predicate RuntimeOk(s: State, w: WorkerId, disk: set<VMName>, id: WorkstationId, rt: Runtime) {
    && id in s.born && s.born[id].worker == w && rt.id == id && rt.vmName == s.born[id].vmName && rt.slot == s.born[id].slot
    && KnownDesired(rt.desired)
    && (rt.desired == Desired.Deleted <==> id in s.told)
    && (GoingAway(rt.state) ==> id in s.told)
    && (rt.state == Power.Deleted ==> rt.vmName !in disk)
  }

  ghost predicate ItemOk(s: State, w: WorkerId, id: WorkstationId, item: Item) {
    && id in s.born && s.born[id].worker == w && item.vmName == s.born[id].vmName && item.slot == s.born[id].slot
    && KnownDesired(item.desired)
    && (item.desired == Desired.Deleted ==> Condemned(s.rows, id))
    && (item.desired != Desired.Deleted ==> id !in s.told)
  }

  ghost predicate ResponseOk(s: State, w: WorkerId, runtimes: Runtimes, response: map<WorkstationId, Item>) {
    && (forall id :: id in response ==> ItemOk(s, w, id, response[id]))
    && (forall id :: id in runtimes && id !in response ==> id !in s.rows)
  }

  ghost predicate PhaseOk(s: State, w: WorkerId, h: Host, p: Proc) {
    match p.phase
    case Reconciling(todo, current) =>
      && todo <= p.runtimes.Keys
      && (current.Some? ==>
            && current.value.id in p.runtimes
            && current.value.pc != Idle
            && PcFits(Micro(p.runtimes[current.value.id], current.value.pc, p.runtimes[current.value.id].vmName in h.disk)))
    case Snapshot(payload) => forall r :: r in payload ==> ReportOk(s, w, r)
    case Awaiting(unhandled, response) =>
      && (forall r :: r in unhandled ==> ReportOk(s, w, r))
      && (response.Some? ==> ResponseOk(s, w, p.runtimes, response.value))
  }

  ghost predicate ProcOk(s: State, w: WorkerId, h: Host, p: Proc) {
    && (forall id :: id in p.runtimes ==> RuntimeOk(s, w, h.disk, id, p.runtimes[id]))
    && PhaseOk(s, w, h, p)
  }

  ghost predicate HostOk(s: State, w: WorkerId, h: Host) {
    && DiskOk(s, w, h.disk)
    && (h.proc.Some? ==> ProcOk(s, w, h, h.proc.value))
  }

  ghost predicate HostsOk(s: State) {
    forall w :: w in s.hosts ==> w in s.pools && HostOk(s, w, s.hosts[w])
  }

  ghost predicate ServerOk(s: State) {
    RowsOk(s) && BirthsOk(s) && OwnersOk(s) && SlotsUnique(s.rows) && ClaimOk(s) && ToldOk(s)
  }

  ghost predicate Inv(s: State) {
    ServerOk(s) && NetOk(s) && HostsOk(s)
  }
}
