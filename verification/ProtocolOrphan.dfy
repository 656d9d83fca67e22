/** A run, honest up to its last step, after which one false "absent" leaves a VM on a host without a row. */
module ProtocolOrphan {
  import opened Types
  import opened Table
  import opened Runtime
  import opened Manager
  import opened Protocol
  import opened ProtocolInvariant
  import opened ProtocolSafety
  import A = Allocator

  const HOST: WorkerId := "w"
  const MEMBER: MemberId := "m"
  const ID: WorkstationId := "a"

  /** An honest step from one state to another. */
  ghost predicate Leads(s: State, step: Step, s': State) {
    Guard(s, step) && Honest(s, step) && Next(s, step) == s'
  }

  lemma Then(states: seq<State>, steps: seq<Step>, step: Step, s': State) returns (more: seq<State>, moves: seq<Step>)
    requires IsRun(states, steps) && Leads(Final(states), step, s')
    ensures IsRun(more, moves) && Final(more) == s'
  {
    more, moves := states + [s'], steps + [step];
    forall i | 0 <= i < |moves| ensures Guard(more[i], moves[i]) && Honest(more[i], moves[i]) && more[i+1] == Next(more[i], moves[i]) {
      if i < |steps| {
        assert more[i] == states[i] && more[i+1] == states[i+1] && moves[i] == steps[i];
      } else {
        assert more[i] == Final(states) && more[i+1] == s' && moves[i] == step;
      }
    }
  }

  /** The states of the run: one worker with one slot, one workstation. */
  function At(desired: Desired, power: Power, disk: set<VMName>, proc: Proc, net: set<Message>, told: set<WorkstationId>): State {
    State(map[HOST := 1], map[ID := Row(MEMBER, HOST, 0, VMNameOf(ID), power, desired)], NoClaim,
          map[HOST := Host(disk, Some(proc))], net, map[ID := Birth(MEMBER, HOST, 0, VMNameOf(ID))], map[VMNameOf(ID) := ID], told)
  }

  function OneRuntime(desired: Desired, state: Power, phase: Phase): Proc {
    Proc(map[ID := Runtime(ID, VMNameOf(ID), 0, desired, state, None, false)], {ID}, phase)
  }

  const NAME: VMName := VMNameOf(ID)

  /** Told to run, not yet told to delete: nothing was ever sent or told. */
  function Running(disk: set<VMName>, proc: Proc): State {
    At(Desired.Running, Power.Starting, disk, proc, {}, {})
  }

  lemma Claimed() returns (states: seq<State>, steps: seq<Step>)
    ensures IsRun(states, steps) && Final(states) == Running({}, Proc(map[], {}, Reconciling({}, None)))
  {
    var hosts := map[HOST := Host({}, Some(Proc(map[], {}, Reconciling({}, None))))];
    var workers := [A.Worker(HOST, 1)];
    var registered := State(map[HOST := 1], map[], NoClaim, map[HOST := Host({}, None)], {}, map[], map[], {});
    var ready := registered.(hosts := hosts);
    states, steps := [State(map[], map[], NoClaim, map[], {}, map[], map[], {})], [];
    states, steps := Then(states, steps, Register(HOST, 1), registered);
    states, steps := Then(states, steps, StartWorker(HOST), ready);
    states, steps := Then(states, steps, ClaimLock(MEMBER, ""), ready.(claim := Locked(MEMBER, "")));
    states, steps := Then(states, steps, ClaimReadWorkers(workers), ready.(claim := SawWorkers(MEMBER, "", workers)));
    var asked := ready.(claim := SawSlots(MEMBER, "", workers, map[HOST := {}]));
    SlotsRead(ready.(claim := SawWorkers(MEMBER, "", workers)), asked);
    states, steps := Then(states, steps, ClaimReadSlots, asked);
    InsertLeads(asked, workers);
    states, steps := Then(states, steps, ClaimInsert(ID, A.Candidate(HOST, 0, 0)), Running({}, Proc(map[], {}, Reconciling({}, None))));
  }

  lemma SlotsRead(s: State, s': State)
    requires s.pools == map[HOST := 1] && s.rows == map[] && s.claim.SawWorkers?
    requires s' == s.(claim := SawSlots(s.claim.member, s.claim.preferred, s.claim.workers, map[HOST := {}]))
    ensures Leads(s, ClaimReadSlots, s')
  {
    assert SlotsIn(s.rows, HOST) == {};
    assert (map w | w in s.pools :: SlotsIn(s.rows, w)) == map[HOST := {}];
  }

  lemma InsertLeads(s: State, workers: seq<A.Worker>)
    requires workers == [A.Worker(HOST, 1)]
    requires s == State(map[HOST := 1], map[], SawSlots(MEMBER, "", workers, map[HOST := {}]),
                        map[HOST := Host({}, Some(Proc(map[], {}, Reconciling({}, None))))], {}, map[], map[], {})
    ensures Leads(s, ClaimInsert(ID, A.Candidate(HOST, 0, 0)), Running({}, Proc(map[], {}, Reconciling({}, None))))
  {
    var candidate, existing := A.Candidate(HOST, 0, 0), map[HOST := {}];
    assert A.Occupied(existing, HOST) == {};
    assert workers[0] in workers && A.Offers(workers[0], existing, candidate);
    A.SelfNotBefore(HOST);
  }

  // The heartbeats and commands, one step at a time.

  lemma ReplaceOne<K, V>(k: K, a: V, b: V)
    ensures map[k := a][k := b] == map[k := b]
  {
  }

  /** The worker process moves on, and nothing else changes. */
  lemma OnlyProc(desired: Desired, power: Power, disk: set<VMName>, p: Proc, p': Proc, net: set<Message>, told: set<WorkstationId>)
    ensures SetProc(At(desired, power, disk, p, net, told), HOST, p') == At(desired, power, disk, p', net, told)
  {
    ReplaceOne(HOST, Host(disk, Some(p)), Host(disk, Some(p')));
  }

  lemma SnapshotLeads(s: State, p: Proc, payload: seq<Report>)
    requires HOST in s.hosts && s.hosts[HOST].proc == Some(p) && p.phase == Reconciling({}, None)
    requires Prune(p.runtimes, p.desiredIDs) == p.runtimes && PayloadOf(p.runtimes, payload)
    ensures Leads(s, TakeSnapshot(HOST, payload), SetProc(s, HOST, p.(phase := Snapshot(payload))))
  {
  }

  lemma SendLeads(s: State, p: Proc)
    requires HOST in s.hosts && s.hosts[HOST].proc == Some(p) && p.phase.Snapshot?
    ensures Leads(s, SendHeartbeat(HOST), SetProc(s, HOST, p.(phase := Awaiting(p.phase.payload, None)))
                    .(net := s.net + set r | r in p.phase.payload :: Message(HOST, r)))
  {
  }

  function Listed(desired: Desired): map<WorkstationId, Item> {
    map[ID := Item(NAME, 0, desired)]
  }

  lemma ResponseLeads(s: State, p: Proc, desired: Desired)
    requires HOST in s.hosts && s.hosts[HOST].proc == Some(p) && p.phase == Awaiting([], None)
    requires ID in s.rows && s.rows == map[ID := s.rows[ID]] && s.rows[ID].worker == HOST
    requires s.rows[ID].slot == 0 && s.rows[ID].vmName == NAME && s.rows[ID].desired == desired
    ensures Leads(s, ComputeResponse(HOST), SetProc(s, HOST, p.(phase := Awaiting([], Some(Listed(desired))))))
  {
    assert DesiredFor(s.rows, HOST) == Listed(desired);
  }

  /** A response that lists the workstation leaves one runtime, told what is listed. */
  lemma ApplyLeads(s: State, p: Proc, desired: Desired, state: Power)
    requires HOST in s.hosts && s.hosts[HOST].proc == Some(p) && p.phase == Awaiting([], Some(Listed(desired)))
    requires (p.runtimes == map[] && state == Power.Stopped) || p.runtimes == OneRuntime(Desired.Running, state, p.phase).runtimes
    ensures Leads(s, ApplyResponse(HOST), SetProc(s, HOST, OneRuntime(desired, state, Reconciling({ID}, None)))
                    .(told := s.told + if desired == Desired.Deleted then {ID} else {}))
  {
    var told := ApplyDesired(p.runtimes, Listed(desired));
    assert told == OneRuntime(desired, state, p.phase).runtimes;
    assert ToldDeleted(told) == if desired == Desired.Deleted then {ID} else {};
    assert Listed(desired).Keys == {ID} == told.Keys;
  }

  lemma BeginLeads(s: State, desired: Desired, state: Power, started: Power, pc: Pc)
    requires HOST in s.hosts && s.hosts[HOST].proc == Some(OneRuntime(desired, state, Reconciling({ID}, None)))
    requires (desired, started, pc) in {(Desired.Running, Power.Starting, RunGet), (Desired.Deleted, Power.Deleting, DeleteGet)}
    ensures Leads(s, BeginRuntime(HOST, ID), SetProc(s, HOST, OneRuntime(desired, started, Reconciling({}, Some(Busy(ID, pc))))))
  {
    var p := OneRuntime(desired, state, Reconciling({ID}, None));
    ReplaceOne(ID, p.runtimes[ID], p.runtimes[ID].(state := started));
    assert {ID} - {ID} == {};
  }

  function Busily(pc: Pc): Proc {
    OneRuntime(Desired.Running, Power.Starting, Reconciling({}, Some(Busy(ID, pc))))
  }

  lemma AbsentLeads()
    ensures Leads(Running({}, Busily(RunGet)), RunCommand(HOST, Outcome(false, true, false, "")), Running({}, Busily(RunClone)))
  {
    var h, h' := Host({}, Some(Busily(RunGet))), Host({}, Some(Busily(RunClone)));
    ReplaceOne(ID, Busily(RunGet).runtimes[ID], Busily(RunGet).runtimes[ID]);
    assert h.disk - {NAME} == {};
    assert Moved(h, Command(Current(h), Outcome(false, true, false, ""))) == h';
    ReplaceOne(HOST, h, h');
  }

  const FAILED: Proc := OneRuntime(Desired.Running, Power.Error, Reconciling({}, None))

  lemma CloneLeads()
    ensures Leads(Running({}, Busily(RunClone)), RunCommand(HOST, Outcome(false, false, true, "")), Running({NAME}, FAILED))
  {
    var h, h' := Host({}, Some(Busily(RunClone))), Host({NAME}, Some(FAILED));
    ReplaceOne(ID, Busily(RunClone).runtimes[ID], FAILED.runtimes[ID]);
    assert h.disk + {NAME} == {NAME};
    assert Moved(h, Command(Current(h), Outcome(false, false, true, ""))) == h';
    ReplaceOne(HOST, h, h');
  }

  lemma FirstHeartbeatLeads()
    ensures var p := Proc(map[], {}, Reconciling({}, None));
            && Leads(Running({}, p), TakeSnapshot(HOST, []), Running({}, p.(phase := Snapshot([]))))
            && Leads(Running({}, p.(phase := Snapshot([]))), SendHeartbeat(HOST), Running({}, p.(phase := Awaiting([], None))))
  {
    var p := Proc(map[], {}, Reconciling({}, None));
    var q := p.(phase := Snapshot([]));
    assert Prune(p.runtimes, p.desiredIDs) == p.runtimes;
    SnapshotLeads(Running({}, p), p, []);
    OnlyProc(Desired.Running, Power.Starting, {}, p, q, {}, {});
    SendLeads(Running({}, q), q);
    OnlyProc(Desired.Running, Power.Starting, {}, q, q.(phase := Awaiting([], None)), {}, {});
    assert {} + (set r | r in q.phase.payload :: Message(HOST, r)) == {};
  }

  lemma FirstResponseLeads()
    ensures var p := Proc(map[], {}, Awaiting([], None));
            var q := p.(phase := Awaiting([], Some(Listed(Desired.Running))));
            && Leads(Running({}, p), ComputeResponse(HOST), Running({}, q))
            && Leads(Running({}, q), ApplyResponse(HOST), Running({}, OneRuntime(Desired.Running, Power.Stopped, Reconciling({ID}, None))))
  {
    var p := Proc(map[], {}, Awaiting([], None));
    var q := p.(phase := Awaiting([], Some(Listed(Desired.Running))));
    ResponseLeads(Running({}, p), p, Desired.Running);
    OnlyProc(Desired.Running, Power.Starting, {}, p, q, {}, {});
    ApplyLeads(Running({}, q), q, Desired.Running, Power.Stopped);
    OnlyProc(Desired.Running, Power.Starting, {}, q, OneRuntime(Desired.Running, Power.Stopped, Reconciling({ID}, None)), {}, {});
  }

  lemma Listening() returns (states: seq<State>, steps: seq<Step>)
    ensures IsRun(states, steps)
    ensures Final(states) == Running({}, OneRuntime(Desired.Running, Power.Stopped, Reconciling({ID}, None)))
  {
    var p := Proc(map[], {}, Reconciling({}, None));
    FirstHeartbeatLeads();
    FirstResponseLeads();
    states, steps := Claimed();
    states, steps := Then(states, steps, TakeSnapshot(HOST, []), Running({}, p.(phase := Snapshot([]))));
    states, steps := Then(states, steps, SendHeartbeat(HOST), Running({}, p.(phase := Awaiting([], None))));
    states, steps := Then(states, steps, ComputeResponse(HOST), Running({}, p.(phase := Awaiting([], Some(Listed(Desired.Running))))));
    states, steps := Then(states, steps, ApplyResponse(HOST), Running({}, OneRuntime(Desired.Running, Power.Stopped, Reconciling({ID}, None))));
  }

  /** The clone fails, but leaves a VM behind. */
  lemma Cloned() returns (states: seq<State>, steps: seq<Step>)
    ensures IsRun(states, steps) && Final(states) == Running({NAME}, FAILED)
  {
    var s := Running({}, OneRuntime(Desired.Running, Power.Stopped, Reconciling({ID}, None)));
    BeginLeads(s, Desired.Running, Power.Stopped, Power.Starting, RunGet);
    OnlyProc(Desired.Running, Power.Starting, {}, s.hosts[HOST].proc.value, Busily(RunGet), {}, {});
    AbsentLeads();
    CloneLeads();
    states, steps := Listening();
    states, steps := Then(states, steps, BeginRuntime(HOST, ID), Running({}, Busily(RunGet)));
    states, steps := Then(states, steps, RunCommand(HOST, Outcome(false, true, false, "")), Running({}, Busily(RunClone)));
    states, steps := Then(states, steps, RunCommand(HOST, Outcome(false, false, true, "")), Running({NAME}, FAILED));
  }

  // The release.

  function Released(proc: Proc, net: set<Message>, told: set<WorkstationId>): State {
    At(Desired.Deleted, Power.Deleting, {NAME}, proc, net, told)
  }

  const REPORT: Report := Report(ID, Power.Error)
  const SENT: set<Message> := {Message(HOST, REPORT)}

  lemma ReleaseLeads()
    ensures Leads(Running({NAME}, FAILED), MemberSetsDesired(MEMBER, ID, Desired.Deleted), Released(FAILED, {}, {}))
  {
    var rows := Running({NAME}, FAILED).rows;
    ReplaceOne(ID, rows[ID], rows[ID].(desired := Desired.Deleted, power := Power.Deleting));
  }

  lemma ReportLeads()
    ensures Leads(Released(FAILED, {}, {}), TakeSnapshot(HOST, [REPORT]), Released(FAILED.(phase := Snapshot([REPORT])), {}, {}))
    ensures Leads(Released(FAILED.(phase := Snapshot([REPORT])), {}, {}), SendHeartbeat(HOST),
                  Released(FAILED.(phase := Awaiting([REPORT], None)), SENT, {}))
  {
    var p, q := FAILED, FAILED.(phase := Snapshot([REPORT]));
    assert Prune(p.runtimes, p.desiredIDs) == p.runtimes;
    assert REPORT in [REPORT];
    SnapshotLeads(Released(p, {}, {}), p, [REPORT]);
    OnlyProc(Desired.Deleted, Power.Deleting, {NAME}, p, q, {}, {});
    SendLeads(Released(q, {}, {}), q);
    OnlyProc(Desired.Deleted, Power.Deleting, {NAME}, q, q.(phase := Awaiting([REPORT], None)), {}, {});
    assert {} + (set r | r in q.phase.payload :: Message(HOST, r)) == SENT;
  }

  lemma HandleLeads()
    ensures Leads(Released(FAILED.(phase := Awaiting([REPORT], None)), SENT, {}), HandleReport(HOST, true),
                  Released(FAILED.(phase := Awaiting([], None)), SENT, {}))
  {
    var p, q := FAILED.(phase := Awaiting([REPORT], None)), FAILED.(phase := Awaiting([], None));
    assert [REPORT][1..] == [];
    OnlyProc(Desired.Deleted, Power.Deleting, {NAME}, p, q, SENT, {});
    var s := Released(q, SENT, {});
    ReplaceOne(ID, s.rows[ID], s.rows[ID]);
    assert Deliver(s, HOST, REPORT) == s;
  }

  const CONDEMNED: Proc := OneRuntime(Desired.Deleted, Power.Error, Reconciling({ID}, None))
  const DELETING: Proc := OneRuntime(Desired.Deleted, Power.Deleting, Reconciling({}, Some(Busy(ID, DeleteGet))))

  lemma CondemnLeads()
    ensures var q := FAILED.(phase := Awaiting([], Some(Listed(Desired.Deleted))));
            && Leads(Released(FAILED.(phase := Awaiting([], None)), SENT, {}), ComputeResponse(HOST), Released(q, SENT, {}))
            && Leads(Released(q, SENT, {}), ApplyResponse(HOST), Released(CONDEMNED, SENT, {ID}))
            && Leads(Released(CONDEMNED, SENT, {ID}), BeginRuntime(HOST, ID), Released(DELETING, SENT, {ID}))
  {
    var p := FAILED.(phase := Awaiting([], None));
    var q := FAILED.(phase := Awaiting([], Some(Listed(Desired.Deleted))));
    ResponseLeads(Released(p, SENT, {}), p, Desired.Deleted);
    OnlyProc(Desired.Deleted, Power.Deleting, {NAME}, p, q, SENT, {});
    ApplyLeads(Released(q, SENT, {}), q, Desired.Deleted, Power.Error);
    OnlyProc(Desired.Deleted, Power.Deleting, {NAME}, q, CONDEMNED, SENT, {});
    assert {} + {ID} == {ID};
    BeginLeads(Released(CONDEMNED, SENT, {ID}), Desired.Deleted, Power.Error, Power.Deleting, DeleteGet);
    OnlyProc(Desired.Deleted, Power.Deleting, {NAME}, CONDEMNED, DELETING, SENT, {ID});
  }

  lemma AboutToDelete() returns (states: seq<State>, steps: seq<Step>)
    ensures IsRun(states, steps) && Final(states) == Released(DELETING, SENT, {ID})
  {
    ReleaseLeads();
    ReportLeads();
    HandleLeads();
    CondemnLeads();
    states, steps := Cloned();
    states, steps := Then(states, steps, MemberSetsDesired(MEMBER, ID, Desired.Deleted), Released(FAILED, {}, {}));
    states, steps := Then(states, steps, TakeSnapshot(HOST, [REPORT]), Released(FAILED.(phase := Snapshot([REPORT])), {}, {}));
    states, steps := Then(states, steps, SendHeartbeat(HOST), Released(FAILED.(phase := Awaiting([REPORT], None)), SENT, {}));
    states, steps := Then(states, steps, HandleReport(HOST, true), Released(FAILED.(phase := Awaiting([], None)), SENT, {}));
    states, steps := Then(states, steps, ComputeResponse(HOST), Released(FAILED.(phase := Awaiting([], Some(Listed(Desired.Deleted)))), SENT, {}));
    states, steps := Then(states, steps, ApplyResponse(HOST), Released(CONDEMNED, SENT, {ID}));
    states, steps := Then(states, steps, BeginRuntime(HOST, ID), Released(DELETING, SENT, {ID}));
  }

  const ABSENT: Outcome := Outcome(false, true, false, "")
  const FAREWELL: Step := TakeSnapshot(HOST, [Report(ID, Power.Deleted)])

  const GONE: Proc := OneRuntime(Desired.Deleted, Power.Deleted, Reconciling({}, None))

  lemma DeniedStep(s: State)
    requires s == Released(DELETING, SENT, {ID})
    ensures Guard(s, RunCommand(HOST, ABSENT)) && Next(s, RunCommand(HOST, ABSENT)) == Released(GONE, SENT, {ID})
  {
    var h, h' := Host({NAME}, Some(DELETING)), Host({NAME}, Some(GONE));
    ReplaceOne(ID, DELETING.runtimes[ID], GONE.runtimes[ID]);
    assert h.disk + {NAME} == {NAME};
    assert Moved(h, Command(Current(h), ABSENT)) == h';
    ReplaceOne(HOST, h, h');
  }

  lemma DeniedLeads(s: State) returns (s1: State, s2: State, s3: State)
    requires s == Released(DELETING, SENT, {ID})
    ensures Guard(s, RunCommand(HOST, ABSENT)) && s1 == Next(s, RunCommand(HOST, ABSENT))
    ensures Guard(s1, FAREWELL) && s2 == Next(s1, FAREWELL)
    ensures Guard(s2, SendHeartbeat(HOST)) && s3 == Next(s2, SendHeartbeat(HOST))
  {
    DeniedStep(s);
    s1 := Released(GONE, SENT, {ID});
    assert Prune(GONE.runtimes, GONE.desiredIDs) == GONE.runtimes;
    assert Report(ID, Power.Deleted) in [Report(ID, Power.Deleted)];
    SnapshotLeads(s1, GONE, [Report(ID, Power.Deleted)]);
    s2 := Next(s1, FAREWELL);
    SendLeads(s2, ProcOf(s2, HOST));
    s3 := Next(s2, SendHeartbeat(HOST));
  }

  /**
    It happens: in a reachable state `tart get` falsely reports the VM absent, and the honest steps after that
    (snapshot, heartbeat, delivery of the report) end with the VM on disk and no row.
  */
  lemma OrphanHappens() returns (states: seq<State>, steps: seq<Step>, s1: State, s2: State, s3: State)
    ensures IsRun(states, steps)
    ensures Guard(Final(states), RunCommand(HOST, ABSENT)) && s1 == Next(Final(states), RunCommand(HOST, ABSENT))
    ensures Guard(s1, FAREWELL) && s2 == Next(s1, FAREWELL)
    ensures Guard(s2, SendHeartbeat(HOST)) && s3 == Next(s2, SendHeartbeat(HOST))
    ensures Guard(s3, Redeliver(HOST, Report(ID, Power.Deleted)))
    ensures var s4 := Next(s3, Redeliver(HOST, Report(ID, Power.Deleted)));
            ID !in s4.rows && HOST in s4.hosts && NAME in s4.hosts[HOST].disk
  {
    states, steps := AboutToDelete();
    RunsKeepInv(states, steps, |states| - 1);
    s1, s2, s3 := DeniedLeads(Final(states));
    FalseAbsenceOrphansVM(Final(states), s1, s2, s3, HOST, ID, ABSENT, [Report(ID, Power.Deleted)]);
  }
}
