/** Every step of the protocol keeps the invariant. */
module ProtocolInvariant {
  import opened Types
  import opened Table
  import opened Runtime
  import opened Manager
  import opened Protocol
  import A = Allocator

  // Frames: what one step leaves intact for a host or a message it does not touch.

  /** History only grows, and a condemned or removed row stays so. */
  ghost predicate Extends(s: State, s': State) {
    && (forall id :: id in s.born ==> id in s'.born && s'.born[id] == s.born[id])
    && (forall n :: n in s.owner ==> n in s'.owner && s'.owner[n] == s.owner[n])
    && s.told <= s'.told
    && (forall id :: id in s.born && Condemned(s.rows, id) ==> Condemned(s'.rows, id))
    && (forall id :: id in s.born && id !in s.rows ==> id !in s'.rows)
  }

  ghost predicate ToldSameFor(s: State, s': State, w: WorkerId) {
    forall id :: id in s.born && s.born[id].worker == w && id in s'.told ==> id in s.told
  }

  lemma HostFrame(s: State, s': State, w: WorkerId)
    requires Extends(s, s') && ToldSameFor(s, s', w)
    requires w in s.hosts && HostOk(s, w, s.hosts[w])
    requires w in s'.hosts && s'.hosts[w] == s.hosts[w]
    requires DiskOk(s', w, s'.hosts[w].disk)
    ensures HostOk(s', w, s'.hosts[w])
  {
    var h := s.hosts[w];
    if h.proc.Some? {
      ProcFrame(s, s', w, h);
    }
  }

  lemma HostsFrame(s: State, s': State)
    requires Extends(s, s') && s'.told == s.told && s'.hosts == s.hosts && s'.pools == s.pools
    requires HostsOk(s)
    requires forall w :: w in s'.hosts ==> DiskOk(s', w, s'.hosts[w].disk)
    ensures HostsOk(s')
  {
    forall w | w in s'.hosts ensures HostOk(s', w, s'.hosts[w]) {
      assert HostOk(s, w, s.hosts[w]);
      HostFrame(s, s', w);
    }
  }

  lemma ProcFrame(s: State, s': State, w: WorkerId, h: Host)
    requires Extends(s, s') && ToldSameFor(s, s', w)
    requires h.proc.Some? && ProcOk(s, w, h, h.proc.value)
    requires w in s.hosts && w in s'.hosts && s.hosts[w] == s'.hosts[w] == h
    ensures ProcOk(s', w, h, h.proc.value)
  {
    var p := h.proc.value;
    forall id | id in p.runtimes ensures RuntimeOk(s', w, h.disk, id, p.runtimes[id]) {
      assert RuntimeOk(s, w, h.disk, id, p.runtimes[id]);
    }
    if p.phase.Snapshot? {
      forall r | r in p.phase.payload ensures ReportOk(s', w, r) {
        assert ReportOk(s, w, r);
      }
    }
    if p.phase.Awaiting? {
      forall r | r in p.phase.unhandled ensures ReportOk(s', w, r) {
        assert ReportOk(s, w, r);
      }
      if p.phase.response.Some? {
        ResponseFrame(s, s', w, p.runtimes, p.phase.response.value);
      }
    }
  }

  lemma ResponseFrame(s: State, s': State, w: WorkerId, runtimes: Runtimes, response: map<WorkstationId, Item>)
    requires Extends(s, s') && ToldSameFor(s, s', w)
    requires ResponseOk(s, w, runtimes, response)
    requires forall id :: id in runtimes ==> id in s.born
    ensures ResponseOk(s', w, runtimes, response)
  {
    forall id | id in response ensures ItemOk(s', w, id, response[id]) {
      assert ItemOk(s, w, id, response[id]);
    }
  }

  lemma NetFrame(s: State, s': State)
    requires Extends(s, s') && NetOk(s) && s'.net == s.net
    requires forall w :: w in s.hosts ==> w in s'.hosts
    requires forall w, id :: w in s.hosts && id in s.told && id in s.born && s.born[id].vmName !in s.hosts[w].disk ==>
      s.born[id].vmName !in s'.hosts[w].disk
    ensures NetOk(s')
  {
    forall m | m in s'.net ensures ReportOk(s', m.worker, m.report) {
      assert ReportOk(s, m.worker, m.report);
    }
  }

  // Server steps.

  /** A transaction on the rows alone: placements stay, releases stay consistent, and only told rows are removed. */
  ghost predicate RowsStep(s: State, s': State) {
    && s' == s.(rows := s'.rows)
    && (forall id :: id in s'.rows ==> id in s.rows && SamePlacement(s.rows[id], s'.rows[id]) && ReleaseConsistent(s'.rows[id]))
    && (forall id :: id in s.rows && Condemned(s.rows, id) ==> Condemned(s'.rows, id))
    && (forall id :: id in s.rows && id !in s'.rows ==> id in s.told)
    && (forall id, w :: id in s.rows && id !in s'.rows && w in s.hosts ==> s.rows[id].vmName !in s.hosts[w].disk)
  }

  lemma RowsStepKeepsInv(s: State, s': State)
    requires Inv(s) && RowsStep(s, s')
    ensures Inv(s')
  {
    RowsStepKeepsServer(s, s');
    RowsStepKeepsNet(s, s');
    RowsStepKeepsHosts(s, s');
  }

  lemma RowsStepKeepsNet(s: State, s': State)
    requires RowsStep(s, s') && NetOk(s)
    ensures NetOk(s')
  {
    RowsStepExtends(s, s');
    NetFrame(s, s');
  }

  lemma RowsStepKeepsHosts(s: State, s': State)
    requires RowsStep(s, s') && RowsOk(s) && OwnersOk(s) && HostsOk(s)
    ensures HostsOk(s')
  {
    RowsStepExtends(s, s');
    forall w | w in s'.hosts ensures DiskOk(s', w, s'.hosts[w].disk) {
      assert HostOk(s, w, s.hosts[w]);
      RowsStepKeepsDisk(s, s', w);
    }
    HostsFrame(s, s');
  }

  lemma RowsStepExtends(s: State, s': State)
    requires RowsStep(s, s')
    ensures Extends(s, s')
  {
  }

  lemma RowsStepKeepsServer(s: State, s': State)
    requires ServerOk(s) && RowsStep(s, s')
    ensures ServerOk(s')
  {
  }

  lemma RowsStepKeepsDisk(s: State, s': State, w: WorkerId)
    requires RowsStep(s, s') && RowsOk(s) && OwnersOk(s) && w in s.hosts && DiskOk(s, w, s.hosts[w].disk)
    ensures DiskOk(s', w, s.hosts[w].disk)
  {
    forall n | n in s.hosts[w].disk ensures n in s'.owner && s'.owner[n] in s'.rows && s'.rows[s'.owner[n]].worker == w {
      var id := s.owner[n];
      assert s.rows[id].vmName == n;
    }
  }

  /** A member transaction is a step on the rows. */
  lemma MemberTransactionIsRowsStep(s: State, id: WorkstationId, member: MemberId, desired: Desired, reply: Reply)
    requires RowsOk(s)
    requires reply == EnsureRunningReply(s.rows, member, id) || reply == SetDesiredReply(s.rows, member, id, desired)
    ensures RowsStep(s, s.(rows := Commit(s.rows, id, reply)))
  {
    if id in s.rows {
      RowTransactionsAreOneWay(s.rows, id, reply, member, desired, "", Power.Starting);
    }
  }

  lemma EnsureRunningKeepsInv(s: State, member: MemberId, id: WorkstationId)
    requires Inv(s)
    ensures Inv(Next(s, MemberEnsuresRunning(member, id)))
  {
    MemberTransactionIsRowsStep(s, id, member, Desired.Running, EnsureRunningReply(s.rows, member, id));
    RowsStepKeepsInv(s, Next(s, MemberEnsuresRunning(member, id)));
  }

  lemma SetDesiredKeepsInv(s: State, member: MemberId, id: WorkstationId, desired: Desired)
    requires Inv(s)
    ensures Inv(Next(s, MemberSetsDesired(member, id, desired)))
  {
    MemberTransactionIsRowsStep(s, id, member, desired, SetDesiredReply(s.rows, member, id, desired));
    RowsStepKeepsInv(s, Next(s, MemberSetsDesired(member, id, desired)));
  }

  /** A VM name that is not on the disk of its own worker is on no disk. */
  lemma NotOnAnyDisk(s: State, id: WorkstationId)
    requires Inv(s) && id in s.born
    requires s.born[id].worker in s.hosts && s.born[id].vmName !in s.hosts[s.born[id].worker].disk
    ensures forall w :: w in s.hosts ==> s.born[id].vmName !in s.hosts[w].disk
  {
    forall w | w in s.hosts ensures s.born[id].vmName !in s.hosts[w].disk {
      assert HostOk(s, w, s.hosts[w]);
    }
  }

  /** Delivering a report at any time, any number of times, is safe. */
  lemma DeliverKeepsInv(s: State, w: WorkerId, report: Report)
    requires Inv(s) && ReportOk(s, w, report)
    ensures Inv(Deliver(s, w, report))
  {
    if report.power == Power.Deleted {
      NotOnAnyDisk(s, report.id);
    }
    ReportIsRowsStep(s, w, report);
    RowsStepKeepsInv(s, Deliver(s, w, report));
  }

  lemma ReportIsRowsStep(s: State, w: WorkerId, report: Report)
    requires RowsOk(s) && ToldOk(s) && ReportOk(s, w, report)
    requires report.power == Power.Deleted ==> forall v :: v in s.hosts ==> s.born[report.id].vmName !in s.hosts[v].disk
    ensures RowsStep(s, Deliver(s, w, report))
  {
    if report.id in s.rows {
      RowTransactionsAreOneWay(s.rows, report.id, ReportReply(s.rows, w, report), "", Desired.Running, w, report.power);
    }
  }

  lemma RegisterKeepsInv(s: State, w: WorkerId, pool: int)
    requires Inv(s)
    ensures Inv(Next(s, Register(w, pool)))
  {
    var s' := Next(s, Register(w, pool));
    if w !in s.pools {
      assert Extends(s, s');
      MorePoolsKeepServer(s, s');
      NetFrame(s, s');
      forall v | v in s'.hosts ensures v in s'.pools && HostOk(s', v, s'.hosts[v]) {
        if v != w {
          assert HostOk(s, v, s.hosts[v]);
          HostFrame(s, s', v);
        }
      }
    }
  }

  lemma MorePoolsKeepServer(s: State, s': State)
    requires ServerOk(s) && s' == s.(pools := s'.pools, hosts := s'.hosts)
    requires forall w :: w in s.pools ==> w in s'.pools && s'.pools[w] == s.pools[w]
    ensures ServerOk(s')
  {
  }

  /** The claim transaction itself changes nothing before its insert. */
  lemma ClaimOnlyKeepsInv(s: State, s': State)
    requires Inv(s) && s' == s.(claim := s'.claim) && ClaimOk(s')
    ensures Inv(s')
  {
    assert Extends(s, s');
    NetFrame(s, s');
    forall w | w in s'.hosts ensures DiskOk(s', w, s'.hosts[w].disk) {
      assert HostOk(s, w, s.hosts[w]);
    }
    HostsFrame(s, s');
  }

  lemma ClaimReadSlotsKeepsInv(s: State)
    requires Inv(s) && s.claim.SawWorkers?
    ensures Inv(Next(s, ClaimReadSlots))
  {
    var s' := Next(s, ClaimReadSlots);
    forall id | id in s.rows ensures s.rows[id].slot in A.Occupied(s'.claim.existing, s.rows[id].worker) {
      assert id in s.born;
    }
    ClaimOnlyKeepsInv(s, s');
  }

  /** The insert of a claim never meets a taken slot, and stays inside the worker's pool. */
  lemma InsertNeverCollides(s: State, c: A.Candidate)
    requires Inv(s) && s.claim.SawSlots?
    requires A.Selects(s.claim.workers, s.claim.existing, s.claim.preferred, A.Chosen(c))
    ensures c.worker in s.pools && 0 <= c.slot < s.pools[c.worker]
    ensures forall id :: id in s.rows ==> s.rows[id].worker != c.worker || s.rows[id].slot != c.slot
  {
    if s.claim.preferred == "" {
      var x :| x in s.claim.workers && A.Offers(x, s.claim.existing, c);
      assert A.Free(x, A.Occupied(s.claim.existing, x.id), c.slot);
    } else {
      var i :| A.FirstNamed(s.claim.workers, s.claim.preferred, i) && A.Offers(s.claim.workers[i], s.claim.existing, c);
      var x := s.claim.workers[i];
      assert x in s.claim.workers;
      assert A.Free(x, A.Occupied(s.claim.existing, x.id), c.slot);
    }
  }

  lemma InsertKeepsRows(s: State, s': State, member: MemberId, id: WorkstationId, name: VMName, c: A.Candidate)
    requires ServerOk(s) && s' == Inserted(s, member, id, name, c)
    requires id !in s.born && name !in s.owner
    requires c.worker in s.pools && 0 <= c.slot < s.pools[c.worker]
    ensures RowsOk(s') && BirthsOk(s') && OwnersOk(s') && ClaimOk(s')
  {
  }

  lemma InsertKeepsHistory(s: State, s': State, member: MemberId, id: WorkstationId, name: VMName, c: A.Candidate)
    requires RowsOk(s) && ToldOk(s) && SlotsUnique(s.rows) && s' == Inserted(s, member, id, name, c)
    requires id !in s.born && name !in s.owner
    requires forall other :: other in s.rows ==> s.rows[other].worker != c.worker || s.rows[other].slot != c.slot
    ensures ToldOk(s') && SlotsUnique(s'.rows)
  {
    assert id !in s.rows;
  }

  lemma InsertExtends(s: State, s': State, member: MemberId, id: WorkstationId, name: VMName, c: A.Candidate)
    requires s' == Inserted(s, member, id, name, c)
    requires id !in s.born && name !in s.owner
    ensures Extends(s, s')
  {
  }

  lemma ClaimInsertKeepsInv(s: State, id: WorkstationId, c: A.Candidate)
    requires Inv(s) && Guard(s, ClaimInsert(id, c))
    ensures Inv(Next(s, ClaimInsert(id, c)))
  {
    var s' := Next(s, ClaimInsert(id, c));
    InsertNeverCollides(s, c);
    InsertKeepsRows(s, s', s.claim.member, id, VMNameOf(id), c);
    InsertKeepsHistory(s, s', s.claim.member, id, VMNameOf(id), c);
    InsertExtends(s, s', s.claim.member, id, VMNameOf(id), c);
    NetFrame(s, s');
    forall w | w in s'.hosts ensures DiskOk(s', w, s'.hosts[w].disk) {
      assert HostOk(s, w, s.hosts[w]);
    }
    HostsFrame(s, s');
  }

  // Steps of a worker process.

  /** A step that only moves the process of one host. */
  lemma ProcStepKeepsInv(s: State, s': State, w: WorkerId)
    requires Inv(s) && w in s.hosts && w in s'.hosts
    requires s' == s.(hosts := s.hosts[w := s.hosts[w].(proc := s'.hosts[w].proc)])
    requires s'.hosts[w].proc.Some? ==> ProcOk(s', w, s'.hosts[w], s'.hosts[w].proc.value)
    ensures Inv(s')
  {
    NetFrame(s, s');
    OtherHostsFrame(s, s', w);
    assert HostOk(s, w, s.hosts[w]);
  }

  lemma OtherHostsFrame(s: State, s': State, w: WorkerId)
    requires HostsOk(s) && Extends(s, s') && s'.rows == s.rows
    requires forall v :: v != w ==> ToldSameFor(s, s', v)
    requires forall v :: v in s'.hosts && v != w ==> v in s.hosts && s'.hosts[v] == s.hosts[v]
    ensures forall v :: v in s'.hosts && v != w ==> HostOk(s', v, s'.hosts[v])
  {
    forall v | v in s'.hosts && v != w ensures HostOk(s', v, s'.hosts[v]) {
      assert HostOk(s, v, s.hosts[v]);
      HostFrame(s, s', v);
    }
  }

  /** What the invariant says about the process of a host. */
  lemma ProcIsOk(s: State, w: WorkerId)
    requires Inv(s) && Alive(s, w)
    ensures ProcOk(s, w, s.hosts[w], ProcOf(s, w))
  {
    assert HostOk(s, w, s.hosts[w]);
  }

  /** Moving to another phase keeps what is known about the runtimes. */
  lemma PhaseChangeKeepsInv(s: State, w: WorkerId, p': Proc)
    requires Inv(s) && Alive(s, w)
    requires p'.runtimes == ProcOf(s, w).runtimes
    requires PhaseOk(SetProc(s, w, p'), w, s.hosts[w].(proc := Some(p')), p')
    ensures Inv(SetProc(s, w, p'))
  {
    var s' := SetProc(s, w, p');
    var h' := s.hosts[w].(proc := Some(p'));
    ProcIsOk(s, w);
    forall id | id in p'.runtimes ensures RuntimeOk(s', w, h'.disk, id, p'.runtimes[id]) {
      assert RuntimeOk(s, w, s.hosts[w].disk, id, ProcOf(s, w).runtimes[id]);
    }
    ProcStepKeepsInv(s, s', w);
  }

  lemma HandleReportKeepsInv(s: State, w: WorkerId, stored: bool)
    requires Inv(s) && Guard(s, HandleReport(w, stored))
    ensures Inv(Next(s, HandleReport(w, stored)))
  {
    var p := ProcOf(s, w);
    var p' := p.(phase := Awaiting(p.phase.unhandled[1..], None));
    var s' := SetProc(s, w, p');
    ProcIsOk(s, w);
    forall r | r in p.phase.unhandled ensures ReportOk(s', w, r) {
      assert ReportOk(s, w, r);
    }
    PhaseChangeKeepsInv(s, w, p');
    if stored {
      DeliverKeepsInv(s', w, p.phase.unhandled[0]);
    }
  }

  lemma ComputeResponseKeepsInv(s: State, w: WorkerId)
    requires Inv(s) && Guard(s, ComputeResponse(w))
    ensures Inv(Next(s, ComputeResponse(w)))
  {
    var p := ProcOf(s, w);
    var response := DesiredFor(s.rows, w);
    var p' := p.(phase := Awaiting([], Some(response)));
    ProcIsOk(s, w);
    ResponseIsOk(s, SetProc(s, w, p'), w, p.runtimes);
    PhaseChangeKeepsInv(s, w, p');
  }

  /** A response lists exactly the worker's rows, so whoever it leaves out has no row. */
  lemma ResponseIsOk(s: State, s': State, w: WorkerId, runtimes: Runtimes)
    requires RowsOk(s) && ToldOk(s) && s'.rows == s.rows && s'.born == s.born && s'.told == s.told
    requires forall id :: id in runtimes ==> id in s.born && s.born[id].worker == w
    ensures ResponseOk(s', w, runtimes, DesiredFor(s.rows, w))
  {
  }

  lemma NextRoundKeepsInv(s: State, w: WorkerId)
    requires Inv(s) && Alive(s, w)
    ensures Inv(SetProc(s, w, NextRound(ProcOf(s, w))))
  {
    PhaseChangeKeepsInv(s, w, NextRound(ProcOf(s, w)));
  }

  lemma StartKeepsInv(s: State, w: WorkerId)
    requires Inv(s) && Guard(s, StartWorker(w))
    ensures Inv(Next(s, StartWorker(w)))
  {
    ProcStepKeepsInv(s, Next(s, StartWorker(w)), w);
  }

  lemma CrashKeepsInv(s: State, w: WorkerId)
    requires Inv(s) && Guard(s, Crash(w))
    ensures Inv(Next(s, Crash(w)))
  {
    ProcStepKeepsInv(s, Next(s, Crash(w)), w);
  }

  lemma BeginFits(rt: Runtime, onDisk: bool)
    requires KnownDesired(rt.desired)
    ensures var (rt', pc) := Begin(rt);
            && rt' == rt.(state := rt'.state)
            && rt'.state != Power.Deleted
            && (rt'.state == Power.Deleting ==> rt.desired == Desired.Deleted)
            && pc != Idle && PcFits(Micro(rt', pc, onDisk))
  {
  }

  lemma BeginKeepsProc(s: State, w: WorkerId, h: Host, id: WorkstationId, p': Proc)
    requires h.proc.Some? && ProcOk(s, w, h, h.proc.value)
    requires h.proc.value.phase.Reconciling? && id in h.proc.value.runtimes
    requires var p := h.proc.value;
             var (rt, pc) := Begin(p.runtimes[id]);
             p' == p.(runtimes := p.runtimes[id := rt], phase := Reconciling(p.phase.todo - {id}, Some(Busy(id, pc))))
    ensures ProcOk(s, w, h.(proc := Some(p')), p')
  {
    var p := h.proc.value;
    BeginFits(p.runtimes[id], p.runtimes[id].vmName in h.disk);
    forall k | k in p'.runtimes ensures RuntimeOk(s, w, h.disk, k, p'.runtimes[k]) {
      assert RuntimeOk(s, w, h.disk, k, p.runtimes[k]);
    }
  }

  lemma BeginKeepsInv(s: State, w: WorkerId, id: WorkstationId)
    requires Inv(s) && Guard(s, BeginRuntime(w, id))
    ensures Inv(Next(s, BeginRuntime(w, id)))
  {
    var p := ProcOf(s, w);
    var (rt, pc) := Begin(p.runtimes[id]);
    var p' := p.(runtimes := p.runtimes[id := rt], phase := Reconciling(p.phase.todo - {id}, Some(Busy(id, pc))));
    ProcIsOk(s, w);
    BeginFits(p.runtimes[id], true);
    BeginKeepsProc(s, w, s.hosts[w], id, p');
    ReplacedProcKeepsInv(s, w, p');
  }

  lemma ReplacedProcKeepsInv(s: State, w: WorkerId, p': Proc)
    requires Inv(s) && w in s.hosts && p'.phase.Reconciling?
    requires ProcOk(s, w, s.hosts[w].(proc := Some(p')), p')
    ensures Inv(SetProc(s, w, p'))
  {
    var s' := SetProc(s, w, p');
    ReconcilingFrame(s, s', w, s.hosts[w].(proc := Some(p')));
    ProcStepKeepsInv(s, s', w);
  }

  lemma SnapshotKeepsInv(s: State, w: WorkerId, payload: seq<Report>)
    requires Inv(s) && Guard(s, TakeSnapshot(w, payload))
    ensures Inv(Next(s, TakeSnapshot(w, payload)))
  {
    var s' := Next(s, TakeSnapshot(w, payload));
    var p, p' := ProcOf(s, w), ProcOf(s', w);
    ProcIsOk(s, w);
    forall k | k in p'.runtimes ensures RuntimeOk(s', w, s'.hosts[w].disk, k, p'.runtimes[k]) {
      assert RuntimeOk(s, w, s.hosts[w].disk, k, p.runtimes[k]);
    }
    forall r | r in payload ensures ReportOk(s', w, r) {
      assert RuntimeOk(s', w, s'.hosts[w].disk, r.id, p'.runtimes[r.id]);
    }
    ProcStepKeepsInv(s, s', w);
  }

  lemma SendKeepsInv(s: State, w: WorkerId)
    requires Inv(s) && Guard(s, SendHeartbeat(w))
    ensures Inv(Next(s, SendHeartbeat(w)))
  {
    var p := ProcOf(s, w);
    var p' := p.(phase := Awaiting(p.phase.payload, None));
    var s1 := SetProc(s, w, p');
    ProcIsOk(s, w);
    forall r | r in p.phase.payload ensures ReportOk(s1, w, r) {
      assert ReportOk(s, w, r);
    }
    PhaseChangeKeepsInv(s, w, p');
    MoreMessagesKeepInv(s1, Next(s, SendHeartbeat(w)));
  }

  lemma MoreMessagesKeepInv(s: State, s': State)
    requires Inv(s) && s' == s.(net := s'.net)
    requires forall m :: m in s'.net && m !in s.net ==> ReportOk(s, m.worker, m.report)
    ensures Inv(s')
  {
    forall m | m in s'.net ensures ReportOk(s', m.worker, m.report) {
      assert ReportOk(s, m.worker, m.report);
    }
    forall w | w in s'.hosts ensures DiskOk(s', w, s'.hosts[w].disk) {
      assert HostOk(s, w, s.hosts[w]);
    }
    HostsFrame(s, s');
  }

  // A tart command: the only step that changes a disk.

  lemma CurrentFits(s: State, w: WorkerId, answer: Outcome)
    requires Inv(s) && Guard(s, RunCommand(w, answer))
    ensures PcFits(Current(s.hosts[w]))
    ensures var m := Current(s.hosts[w]);
            RuntimeOk(s, w, s.hosts[w].disk, ProcOf(s, w).phase.current.value.id, m.rt)
  {
    ProcIsOk(s, w);
  }

  /** The disk after a command differs at most in the VM of the runtime that ran it. */
  lemma MovedDisk(h: Host, answer: Outcome)
    requires h.proc.Some? && h.proc.value.phase.Reconciling? && h.proc.value.phase.current.Some?
    requires h.proc.value.phase.current.value.id in h.proc.value.runtimes
    requires Current(h).pc != Idle && PcFits(Current(h)) && Faithful(Current(h), answer)
    ensures var m := Current(h);
            var m' := Command(m, answer);
            var h' := Moved(h, m');
            && (forall n :: n != m.rt.vmName ==> (n in h'.disk <==> n in h.disk))
            && (m.rt.vmName in h'.disk <==> m'.onDisk)
            && (m.rt.vmName in h'.disk && m.rt.vmName !in h.disk ==> m.rt.desired == Desired.Running)
  {
    CommandIsSafe(Current(h), answer);
  }

  /** A VM appears only for a workstation nobody was told to delete. */
  lemma CommandKeepsDisk(s: State, w: WorkerId, answer: Outcome)
    requires Inv(s) && Guard(s, RunCommand(w, answer)) && Honest(s, RunCommand(w, answer))
    ensures var h' := Moved(s.hosts[w], Command(Current(s.hosts[w]), answer));
            && DiskOk(s, w, h'.disk)
            && forall id :: id in s.born && id in s.told && s.born[id].vmName !in s.hosts[w].disk ==> s.born[id].vmName !in h'.disk
  {
    CurrentFits(s, w, answer);
    MovedDisk(s.hosts[w], answer);
    assert HostOk(s, w, s.hosts[w]);
  }

  lemma CommandKeepsProc(s: State, w: WorkerId, h: Host, h': Host, m: Micro, m': Micro)
    requires BirthsOk(s)
    requires h.proc.Some? && h'.proc.Some? && ProcOk(s, w, h, h.proc.value)
    requires h.proc.value.phase.Reconciling? && h.proc.value.phase.current.Some?
    requires h.proc.value.phase.current.value.id in h.proc.value.runtimes
    requires m == Current(h) && h' == Moved(h, m')
    requires m'.rt.id == m.rt.id && m'.rt.vmName == m.rt.vmName && m'.rt.slot == m.rt.slot && m'.rt.desired == m.rt.desired
    requires PcFits(m')
    requires GoingAway(m'.rt.state) ==> m.rt.desired == Desired.Deleted
    requires m'.rt.state == Power.Deleted ==> !m'.onDisk
    ensures ProcOk(s, w, h', h'.proc.value)
  {
    var p, p' := h.proc.value, h'.proc.value;
    var id := p.phase.current.value.id;
    forall k | k in p'.runtimes ensures RuntimeOk(s, w, h'.disk, k, p'.runtimes[k]) {
      assert RuntimeOk(s, w, h.disk, k, p.runtimes[k]);
      assert RuntimeOk(s, w, h.disk, id, p.runtimes[id]);
    }
  }

  lemma CommandKeepsInv(s: State, w: WorkerId, answer: Outcome)
    requires Inv(s) && Guard(s, RunCommand(w, answer)) && Honest(s, RunCommand(w, answer))
    ensures Inv(Next(s, RunCommand(w, answer)))
  {
    var h := s.hosts[w];
    var m := Current(h);
    var m' := Command(m, answer);
    var h' := Moved(h, m');
    CurrentFits(s, w, answer);
    CommandIsSafe(m, answer);
    CommandKeepsDisk(s, w, answer);
    ProcIsOk(s, w);
    CommandKeepsProc(s, w, h, h', m, m');
    HostStepKeepsInv(s, w, h');
  }

  /** A step that replaces one host by a sound one, keeping deleted VMs off its disk. */
  lemma HostStepKeepsInv(s: State, w: WorkerId, h': Host)
    requires Inv(s) && w in s.hosts && DiskOk(s, w, h'.disk)
    requires h'.proc.Some? && h'.proc.value.phase.Reconciling? && ProcOk(s, w, h', h'.proc.value)
    requires forall id :: id in s.born && id in s.told && s.born[id].vmName !in s.hosts[w].disk ==> s.born[id].vmName !in h'.disk
    ensures Inv(s.(hosts := s.hosts[w := h']))
  {
    var s' := s.(hosts := s.hosts[w := h']);
    ServerFrame(s, s');
    NetFrame(s, s');
    OtherHostsFrame(s, s', w);
    ReconcilingFrame(s, s', w, h');
    assert HostOk(s', w, h');
  }

  lemma ServerFrame(s: State, s': State)
    requires ServerOk(s) && s' == s.(hosts := s'.hosts, net := s'.net)
    ensures ServerOk(s')
  {
  }

  /** What is known about a reconciling process does not depend on the hosts map. */
  lemma ReconcilingFrame(s: State, s': State, w: WorkerId, h: Host)
    requires h.proc.Some? && h.proc.value.phase.Reconciling? && ProcOk(s, w, h, h.proc.value)
    requires s' == s.(hosts := s'.hosts)
    ensures ProcOk(s', w, h, h.proc.value)
  {
    forall k | k in h.proc.value.runtimes ensures RuntimeOk(s', w, h.disk, k, h.proc.value.runtimes[k]) {
      assert RuntimeOk(s, w, h.disk, k, h.proc.value.runtimes[k]);
    }
  }

  // Applying an authoritative response: the only step that tells runtimes what to do.

  /** Whoever is told to delete is condemned, and whoever was told before is told again. */
  lemma ApplyTellsSoundly(s: State, w: WorkerId, p: Proc, response: map<WorkstationId, Item>)
    requires ToldOk(s) && RowsOk(s) && w in s.hosts
    requires forall id :: id in p.runtimes ==> RuntimeOk(s, w, s.hosts[w].disk, id, p.runtimes[id])
    requires ResponseOk(s, w, p.runtimes, response)
    ensures var runtimes := ApplyDesired(p.runtimes, response);
            && (forall id :: id in ToldDeleted(runtimes) ==> id in s.born && s.born[id].worker == w && Condemned(s.rows, id))
            && (forall id :: id in runtimes && id in s.told ==> runtimes[id].desired == Desired.Deleted)
  {
    var runtimes := ApplyDesired(p.runtimes, response);
    forall id | id in runtimes
      ensures runtimes[id].desired == Desired.Deleted ==> id in s.born && s.born[id].worker == w && Condemned(s.rows, id)
      ensures id in s.told ==> runtimes[id].desired == Desired.Deleted
    {
      if id in response {
        assert ItemOk(s, w, id, response[id]);
      } else {
        assert RuntimeOk(s, w, s.hosts[w].disk, id, p.runtimes[id]);
      }
    }
  }

  lemma ApplyKeepsRuntimes(s: State, s': State, w: WorkerId, p: Proc, response: map<WorkstationId, Item>)
    requires w in s.hosts && ResponseOk(s, w, p.runtimes, response)
    requires forall id :: id in p.runtimes ==> RuntimeOk(s, w, s.hosts[w].disk, id, p.runtimes[id])
    requires s'.born == s.born && s'.told == s.told + ToldDeleted(ApplyDesired(p.runtimes, response))
    requires forall id :: id in ApplyDesired(p.runtimes, response) && id in s.told ==>
      ApplyDesired(p.runtimes, response)[id].desired == Desired.Deleted
    ensures var runtimes := ApplyDesired(p.runtimes, response);
            forall id :: id in runtimes ==> RuntimeOk(s', w, s.hosts[w].disk, id, runtimes[id])
  {
    var runtimes := ApplyDesired(p.runtimes, response);
    forall id | id in runtimes ensures RuntimeOk(s', w, s.hosts[w].disk, id, runtimes[id]) {
      if id in response {
        assert ItemOk(s, w, id, response[id]);
      }
      if id in p.runtimes {
        assert RuntimeOk(s, w, s.hosts[w].disk, id, p.runtimes[id]);
      }
    }
  }

  lemma ApplyKeepsInv(s: State, w: WorkerId)
    requires Inv(s) && Guard(s, ApplyResponse(w))
    ensures Inv(Next(s, ApplyResponse(w)))
  {
    var s' := Next(s, ApplyResponse(w));
    var p := ProcOf(s, w);
    var response := p.phase.response.value;
    ProcIsOk(s, w);
    ApplyTellsSoundly(s, w, p, response);
    ApplyKeepsRuntimes(s, s', w, p, response);
    MoreToldKeepsRest(s, s', w);
    assert HostOk(s, w, s.hosts[w]);
    NextRoundIsOk(s', w, s'.hosts[w]);
  }

  lemma NextRoundIsOk(s: State, w: WorkerId, h: Host)
    requires DiskOk(s, w, h.disk) && h.proc.Some? && h.proc.value.phase == Reconciling(h.proc.value.runtimes.Keys, None)
    requires forall id :: id in h.proc.value.runtimes ==> RuntimeOk(s, w, h.disk, id, h.proc.value.runtimes[id])
    ensures HostOk(s, w, h)
  {
  }

  /** Telling one worker's runtimes leaves the server, the network and the other hosts sound. */
  lemma MoreToldKeepsRest(s: State, s': State, w: WorkerId)
    requires Inv(s) && w in s.hosts && w in s'.hosts && s'.hosts[w].disk == s.hosts[w].disk
    requires s' == s.(hosts := s.hosts[w := s'.hosts[w]], told := s'.told)
    requires s.told <= s'.told
    requires forall id :: id in s'.told && id !in s.told ==> id in s.born && s.born[id].worker == w && Condemned(s.rows, id)
    ensures ServerOk(s') && NetOk(s')
    ensures forall v :: v in s'.hosts && v != w ==> HostOk(s', v, s'.hosts[v])
  {
    NetFrame(s, s');
    OtherHostsFrame(s, s', w);
  }

  // The invariant over whole runs.

  predicate OnServer(step: Step) {
    || step.Register? || step.MemberEnsuresRunning? || step.MemberSetsDesired? || step.ClaimLock? || step.ClaimReadWorkers?
    || step.ClaimReadSlots? || step.ClaimInsert? || step.ClaimAbort? || step.Redeliver?
  }

  lemma ServerStepKeepsInv(s: State, step: Step)
    requires Inv(s) && Guard(s, step) && OnServer(step)
    ensures Inv(Next(s, step))
  {
    match step
    case Register(w, pool) => RegisterKeepsInv(s, w, pool);
    case MemberEnsuresRunning(member, id) => EnsureRunningKeepsInv(s, member, id);
    case MemberSetsDesired(member, id, desired) => SetDesiredKeepsInv(s, member, id, desired);
    case ClaimLock(member, preferred) => ClaimOnlyKeepsInv(s, Next(s, step));
    case ClaimReadWorkers(workers) => ClaimOnlyKeepsInv(s, Next(s, step));
    case ClaimReadSlots => ClaimReadSlotsKeepsInv(s);
    case ClaimInsert(id, c) => ClaimInsertKeepsInv(s, id, c);
    case ClaimAbort => ClaimOnlyKeepsInv(s, Next(s, step));
    case Redeliver(w, report) => DeliverKeepsInv(s, w, report);
  }

  /** Steps of a heartbeat, from sending it to applying its response or giving up. */
  predicate OfHeartbeat(step: Step) {
    step.HandleReport? || step.ComputeResponse? || step.SkipHeartbeat? || step.SendHeartbeat? || step.ApplyResponse? || step.HeartbeatFails?
  }

  lemma HeartbeatStepKeepsInv(s: State, step: Step)
    requires Inv(s) && Guard(s, step) && OfHeartbeat(step)
    ensures Inv(Next(s, step))
  {
    match step
    case HandleReport(w, stored) => HandleReportKeepsInv(s, w, stored);
    case ComputeResponse(w) => ComputeResponseKeepsInv(s, w);
    case SkipHeartbeat(w) => NextRoundKeepsInv(s, w);
    case SendHeartbeat(w) => SendKeepsInv(s, w);
    case ApplyResponse(w) => ApplyKeepsInv(s, w);
    case HeartbeatFails(w) => NextRoundKeepsInv(s, w);
  }

  lemma ReconcileStepKeepsInv(s: State, step: Step)
    requires Inv(s) && Guard(s, step) && Honest(s, step) && !OnServer(step) && !OfHeartbeat(step)
    ensures Inv(Next(s, step))
  {
    match step
    case StartWorker(w) => StartKeepsInv(s, w);
    case Crash(w) => CrashKeepsInv(s, w);
    case BeginRuntime(w, id) => BeginKeepsInv(s, w, id);
    case RunCommand(w, answer) => CommandKeepsInv(s, w, answer);
    case TakeSnapshot(w, payload) => SnapshotKeepsInv(s, w, payload);
  }

  lemma StepKeepsInv(s: State, step: Step)
    requires Inv(s) && Guard(s, step) && Honest(s, step)
    ensures Inv(Next(s, step))
  {
    if OnServer(step) {
      ServerStepKeepsInv(s, step);
    } else if OfHeartbeat(step) {
      HeartbeatStepKeepsInv(s, step);
    } else {
      ReconcileStepKeepsInv(s, step);
    }
  }

  /** Every state of every run satisfies the invariant. */
  lemma {:induction false} RunsKeepInv(states: seq<State>, steps: seq<Step>, i: nat)
    requires IsRun(states, steps) && i < |states|
    ensures Inv(states[i])
  {
    if i > 0 {
      RunsKeepInv(states, steps, i - 1);
      StepKeepsInv(states[i-1], steps[i-1]);
    }
  }
}
