/**
  One workstation's runtime on a worker host. The reconcile code is a sequence of tart commands;
  `Begin` and `Command` are its small steps, and the class runs the same code to the end.
*/
module Runtime {
  import opened Types

  datatype Runtime = Runtime(
    id: WorkstationId,
    vmName: VMName,
    slot: int,
    desired: Desired,
    state: Power,
    ip: Option<string>,
    hasProcess: bool
  )

  /** The command a reconcile is about to issue. */
  datatype Pc =
    | Idle
    | RunGet | RunClone | RunConfigure | IpGet | IpQuery | Reconfigure | Launch | IpWait
    | StopGet | StopStop
    | DeleteGet | DeleteStop | DeleteRecheck | DeleteDelete

  /**
    How the environment answers one command: what `tart get` says, whether the command succeeds
    ("not running" counts as success of a stop), whether a failing clone or delete took effect anyway,
    and the address `tart ip` prints.
  */
  datatype Outcome = Outcome(present: bool, ok: bool, effect: bool, ip: string)

  /** A runtime between two commands, with whether its VM is on disk. */
  datatype Micro = Micro(rt: Runtime, pc: Pc, onDisk: bool)

  function Fresh(id: WorkstationId, item: Item): Runtime {
    Runtime(id, item.vmName, item.slot, item.desired, Power.Stopped, None, false)
  }

  /** `tart get` does not report a VM absent that is on disk and about to be deleted. */
  predicate Faithful(m: Micro, o: Outcome) {
    (m.pc.DeleteGet? || m.pc.DeleteRecheck?) && m.onDisk ==> o.present
  }

  function Begin(rt: Runtime): (Runtime, Pc) {
    match rt.desired
    case Running => (rt.(state := Power.Starting), RunGet)
    case Stopped => (rt.(state := Power.Stopping), StopGet)
    case Deleted => (rt.(state := Power.Deleting), DeleteGet)
    case Unknown(_) => (rt.(state := Power.Error), Idle)
  }

  function Fail(m: Micro): Micro {
    m.(rt := m.rt.(state := Power.Error), pc := Idle)
  }

  /** No address yet: leave a launched VM alone, otherwise configure and launch it. */
  function NoAddress(m: Micro): Micro {
    m.(pc := if m.rt.hasProcess then Idle else Reconfigure)
  }

  function Reached(m: Micro, ip: string): Micro {
    m.(rt := m.rt.(ip := Some(ip), state := Power.Running), pc := Idle)
  }

  function Settle(m: Micro, state: Power): Micro {
    m.(rt := m.rt.(hasProcess := false, ip := None, state := state), pc := Idle)
  }

  /** One command of the reconcile, with its answer. */
  function Command(m: Micro, o: Outcome): Micro
    requires m.pc != Idle
  {
    match m.pc
    case RunGet => m.(pc := if o.present then IpGet else RunClone)
    case RunClone => if o.ok then m.(pc := RunConfigure, onDisk := true) else Fail(m.(onDisk := m.onDisk || o.effect))
    case RunConfigure => if o.ok then m.(pc := IpGet) else Fail(m)
    case IpGet => if o.present then m.(pc := IpQuery) else NoAddress(m)
    case IpQuery => if o.ok && o.ip != "" then Reached(m, o.ip) else NoAddress(m)
    case Reconfigure => if o.ok then m.(pc := Launch) else Fail(m)
    case Launch => if o.ok then m.(rt := m.rt.(hasProcess := true), pc := IpWait) else Fail(m)
    case IpWait => if o.ok then Reached(m, o.ip) else Fail(m)
    case StopGet => if o.present then m.(pc := StopStop) else Settle(m, Power.Stopped)
    case StopStop => if o.ok then Settle(m, Power.Stopped) else Fail(m)
    case DeleteGet => if o.present then m.(pc := DeleteStop) else Settle(m, Power.Deleted)
    case DeleteStop => if o.ok then m.(pc := DeleteRecheck) else Fail(m)
    case DeleteRecheck => if o.present then m.(pc := DeleteDelete) else Settle(m, Power.Deleted)
    case DeleteDelete =>
      if o.ok then Settle(m.(onDisk := false), Power.Deleted) else Fail(m.(onDisk := m.onDisk && !o.effect))
  }

  /** How many commands a reconcile can still issue. */
  function Remaining(pc: Pc): nat {
    match pc
    case Idle => 0
    case RunGet => 8 case RunClone => 7 case RunConfigure => 6 case IpGet => 5 case IpQuery => 4
    case Reconfigure => 3 case Launch => 2 case IpWait => 1
    case StopGet => 2 case StopStop => 1
    case DeleteGet => 4 case DeleteStop => 3 case DeleteRecheck => 2 case DeleteDelete => 1
  }

  /** Runs the small steps until no command is left; answers are taken in order. */
  ghost function Drive(m: Micro, answers: seq<Outcome>): Micro
    requires |answers| >= Remaining(m.pc)
    decreases Remaining(m.pc)
  {
    if m.pc == Idle then m else Drive(Command(m, answers[0]), answers[1..])
  }

  /** The k-th answer drives one command. */
  lemma DriveOne(m: Micro, answers: seq<Outcome>, k: nat)
    requires m.pc != Idle && |answers| - k >= Remaining(m.pc)
    ensures var m' := Command(m, answers[k]);
            && Drive(m, answers[k..]) == Drive(m', answers[k+1..])
            && (m'.pc == Idle ==> Drive(m, answers[k..]) == m')
  {
    assert answers[k..][1..] == answers[k+1..];
  }

  /** The whole reconcile of a runtime. */
  ghost function Reconciled(rt: Runtime, onDisk: bool, answers: seq<Outcome>): Micro
    requires |answers| >= 8
  {
    var (started, pc) := Begin(rt);
    Drive(Micro(started, pc, onDisk), answers)
  }

  /** The VMs on a host's disk, changed only by clone and delete. */
  class TartHost {
    var vms: set<VMName>

    constructor (vms: set<VMName>)
      ensures this.vms == vms
    {
      this.vms := vms;
    }

    method Clone(name: VMName, o: Outcome) returns (ok: bool)
      modifies this
      ensures ok == o.ok
      ensures vms == if o.ok || o.effect then old(vms) + {name} else old(vms)
    {
      if o.ok || o.effect {
        vms := vms + {name};
      }
      return o.ok;
    }

    method Delete(name: VMName, o: Outcome) returns (ok: bool)
      modifies this
      ensures ok == o.ok
      ensures vms == if o.ok || o.effect then old(vms) - {name} else old(vms)
    {
      if o.ok || o.effect {
        vms := vms - {name};
      }
      return o.ok;
    }
  }

  /** Where the re-check and the delete command end. */
  lemma DriveRecheck(m: Micro, answers: seq<Outcome>)
    requires m.pc == DeleteRecheck && |answers| >= 4
    ensures Drive(m, answers[2..]) ==
            if !answers[2].present then Settle(m, Power.Deleted) else Command(m.(pc := DeleteDelete), answers[3])
  {
    DriveOne(m, answers, 2);
    if answers[2].present {
      DriveOne(m.(pc := DeleteDelete), answers, 3);
    }
  }

  /** Where the delete commands end, answer by answer. */
  lemma DriveDelete(m: Micro, answers: seq<Outcome>)
    requires m.pc == DeleteGet && |answers| >= 4
    ensures Drive(m, answers) ==
            if !answers[0].present then Settle(m, Power.Deleted)
            else if !answers[1].ok then Fail(m)
            else if !answers[2].present then Settle(m, Power.Deleted)
            else Command(m.(pc := DeleteDelete), answers[3])
  {
    assert answers == answers[0..];
    DriveOne(m, answers, 0);
    if answers[0].present {
      var m1 := m.(pc := DeleteStop);
      DriveOne(m1, answers, 1);
      if answers[1].ok {
        DriveRecheck(m.(pc := DeleteRecheck), answers);
      }
    }
  }

  /** Where asking for the address ends: found, left alone, or on to configuring. */
  lemma DriveQuery(m: Micro, answers: seq<Outcome>, from: nat)
    requires m.pc == IpGet && |answers| - from >= 5
    ensures var next := if answers[from].present then from + 2 else from + 1;
            Drive(m, answers[from..]) ==
            if answers[from].present && answers[from+1].ok && answers[from+1].ip != "" then Reached(m, answers[from+1].ip)
            else if m.rt.hasProcess then m.(pc := Idle)
            else Drive(m.(pc := Reconfigure), answers[next..])
  {
    DriveOne(m, answers, from);
    if answers[from].present {
      DriveOne(m.(pc := IpQuery), answers, from + 1);
    }
  }

  /** Where configuring and launching ends. */
  lemma DriveLaunch(m: Micro, answers: seq<Outcome>, k: nat)
    requires m.pc == Reconfigure && |answers| - k >= 3
    ensures Drive(m, answers[k..]) ==
            if !answers[k].ok then Fail(m)
            else if !answers[k+1].ok then Fail(m)
            else Command(m.(rt := m.rt.(hasProcess := true), pc := IpWait), answers[k+2])
  {
    DriveOne(m, answers, k);
    if answers[k].ok {
      DriveOne(m.(pc := Launch), answers, k + 1);
      if answers[k+1].ok {
        DriveOne(m.(rt := m.rt.(hasProcess := true), pc := IpWait), answers, k + 2);
      }
    }
  }

  /** The actor: the reconcile code as it is written, over a host. */
  /**
    What looking for an address makes of a runtime. An address that is found makes it running. Without one a launched VM
    is left alone, and another one is configured, launched and waited for; whatever fails first makes it an error.
  */
  predicate Awaited(rt: Runtime, answers: seq<Outcome>, from: nat, after: Runtime)
    requires |answers| - from >= 5
  {
    var next := if answers[from].present then from + 2 else from + 1;
    if answers[from].present && answers[from+1].ok && answers[from+1].ip != "" then
      after == rt.(ip := Some(answers[from+1].ip), state := Power.Running)
    else if rt.hasProcess then
      after == rt
    else if !answers[next].ok || !answers[next+1].ok then
      after == rt.(state := Power.Error)
    else if !answers[next+2].ok then
      after == rt.(hasProcess := true, state := Power.Error)
    else
      after == rt.(hasProcess := true, ip := Some(answers[next+2].ip), state := Power.Running)
  }

  class WorkstationRuntime {
    const workstationID: WorkstationId
    const vmName: VMName
    const slot: int
    var desired: Desired
    var state: Power
    var ip: Option<string>
    var hasProcess: bool

    constructor (id: WorkstationId, item: Item)
      ensures Value() == Fresh(id, item)
      ensures workstationID == id && vmName == item.vmName && slot == item.slot && desired == item.desired
      ensures state == Power.Stopped && ip == None && !hasProcess
    {
      workstationID, vmName, slot := id, item.vmName, item.slot;
      desired, state, ip, hasProcess := item.desired, Power.Stopped, None, false;
    }

    function Value(): Runtime
      reads this
    {
      Runtime(workstationID, vmName, slot, desired, state, ip, hasProcess)
    }

    method Apply(item: Item)
      modifies this
      ensures Value() == old(Value()).(desired := item.desired)
    {
      desired := item.desired;
    }

    method MarkForDeletion()
      modifies this
      ensures Value() == old(Value()).(desired := Desired.Deleted)
    {
      desired := Desired.Deleted;
    }

    /** The state of the runtime and of its VM, as the small steps see it. */
    ghost function At(host: TartHost, pc: Pc): Micro
      reads this, host
    {
      Micro(Value(), pc, vmName in host.vms)
    }

    /** Ends where the small steps end, and touches no other VM. */
    method Reconcile(host: TartHost, answers: seq<Outcome>)
      requires |answers| >= 8
      modifies this, host
      ensures At(host, Idle) == Reconciled(old(Value()), old(vmName in host.vms), answers)
      ensures forall n :: n != vmName ==> (n in host.vms <==> n in old(host.vms))
      ensures desired == old(desired) && (desired.Unknown? ==> state == Power.Error)
    {
      match desired {
        case Running => EnsureRunning(host, answers);
        case Stopped => EnsureStopped(host, answers);
        case Deleted => EnsureDeleted(host, answers);
        case Unknown(_) => state := Power.Error;
      }
    }

    method EnsureRunning(host: TartHost, answers: seq<Outcome>)
      requires |answers| >= 8
      modifies this, host
      ensures At(host, Idle) == Drive(Micro(old(Value()).(state := Power.Starting), RunGet, old(vmName in host.vms)), answers)
      ensures forall n :: n != vmName ==> (n in host.vms <==> n in old(host.vms))
      ensures desired == old(desired)
      ensures vmName in host.vms <==> vmName in old(host.vms) || (!answers[0].present && (answers[1].ok || answers[1].effect))
      ensures !answers[0].present && !(answers[1].ok && answers[2].ok) ==>
        state == Power.Error && ip == old(ip) && hasProcess == old(hasProcess)
      ensures answers[0].present ==> Awaited(old(Value()).(state := Power.Starting), answers, 1, Value())
      ensures !answers[0].present && answers[1].ok && answers[2].ok ==>
        Awaited(old(Value()).(state := Power.Starting), answers, 3, Value())
    {
      state := Power.Starting;
      assert answers == answers[0..];
      DriveOne(At(host, RunGet), answers, 0);
      var next := 1;
      if !answers[0].present {
        DriveOne(At(host, RunClone), answers, 1);
        var cloned := host.Clone(vmName, answers[1]);
        if !cloned {
          state := Power.Error;
          return;
        }
        DriveOne(At(host, RunConfigure), answers, 2);
        if !answers[2].ok {
          state := Power.Error;
          return;
        }
        next := 3;
      }
      AwaitAddress(host, answers, next);
    }

    /** The part of ensure-running after the VM exists: find its address, or launch it and wait. */
    method AwaitAddress(host: TartHost, answers: seq<Outcome>, from: nat)
      requires |answers| - from >= 5
      modifies this
      ensures At(host, Idle) == Drive(old(At(host, IpGet)), answers[from..])
      ensures Awaited(old(Value()), answers, from, Value())
    {
      DriveQuery(At(host, IpGet), answers, from);
      var next := from + 1;
      if answers[from].present {
        if answers[next].ok && answers[next].ip != "" {
          ip := Some(answers[next].ip);
          state := Power.Running;
          return;
        }
        next := next + 1;
      }
      if hasProcess {
        return;
      }
      DriveLaunch(At(host, Reconfigure), answers, next);
      if !answers[next].ok {
        state := Power.Error;
        return;
      }
      if !answers[next + 1].ok {
        state := Power.Error;
        return;
      }
      hasProcess := true;
      if !answers[next + 2].ok {
        state := Power.Error;
        return;
      }
      ip := Some(answers[next + 2].ip);
      state := Power.Running;
    }

    method EnsureStopped(host: TartHost, answers: seq<Outcome>)
      requires |answers| >= 2
      modifies this
      ensures At(host, Idle) == Drive(Micro(old(Value()).(state := Power.Stopping), StopGet, old(vmName in host.vms)), answers)
      ensures desired == old(desired)
      ensures answers[0].present && !answers[1].ok ==> state == Power.Error && ip == old(ip) && hasProcess == old(hasProcess)
      ensures !answers[0].present || answers[1].ok ==> state == Power.Stopped && ip == None && !hasProcess
    {
      state := Power.Stopping;
      assert answers == answers[0..];
      DriveOne(At(host, StopGet), answers, 0);
      if answers[0].present {
        DriveOne(At(host, StopStop), answers, 1);
        if !answers[1].ok {
          state := Power.Error;
          return;
        }
      }
      hasProcess := false;
      ip := None;
      state := Power.Stopped;
    }

    method EnsureDeleted(host: TartHost, answers: seq<Outcome>)
      requires |answers| >= 4
      modifies this, host
      ensures At(host, Idle) == Drive(Micro(old(Value()).(state := Power.Deleting), DeleteGet, old(vmName in host.vms)), answers)
      ensures forall n :: n != vmName ==> (n in host.vms <==> n in old(host.vms))
      ensures var tried := answers[0].present && answers[1].ok && answers[2].present;
              var failed := answers[0].present && (!answers[1].ok || (answers[2].present && !answers[3].ok));
              && desired == old(desired)
              && (failed ==> state == Power.Error && ip == old(ip) && hasProcess == old(hasProcess))
              && (!failed ==> state == Power.Deleted && ip == None && !hasProcess)
              && (vmName in host.vms <==> vmName in old(host.vms) && !(tried && (answers[3].ok || answers[3].effect)))
    {
      state := Power.Deleting;
      DriveDelete(At(host, DeleteGet), answers);
      if answers[0].present {
        if !answers[1].ok {
          state := Power.Error;
          return;
        }
        if answers[2].present {
          var deleted := host.Delete(vmName, answers[3]);
          if !deleted {
            state := Power.Error;
            return;
          }
        }
      }
      hasProcess := false;
      ip := None;
      state := Power.Deleted;
    }
  }

  // What the small steps can and cannot do to the disk.

  predicate RunPath(pc: Pc) {
    pc.RunGet? || pc.RunClone? || pc.RunConfigure? || pc.IpGet? || pc.IpQuery? || pc.Reconfigure? || pc.Launch? || pc.IpWait?
  }

  predicate DeletePath(pc: Pc) {
    pc.DeleteGet? || pc.DeleteStop? || pc.DeleteRecheck? || pc.DeleteDelete?
  }

  /** A command counter fits the desired state the reconcile began with, and "deleted" is not claimed yet. */
  predicate PcFits(m: Micro) {
    && (RunPath(m.pc) ==> m.rt.desired == Desired.Running && m.rt.state == Power.Starting)
    && (DeletePath(m.pc) ==> m.rt.desired == Desired.Deleted && m.rt.state == Power.Deleting)
    && (m.pc.StopGet? || m.pc.StopStop? ==> m.rt.desired == Desired.Stopped && m.rt.state == Power.Stopping)
  }

  /** That is exactly what it takes for "deleted" to mean absent: one false absence while deleting breaks it. */
  lemma DeletedMeansAbsentIffFaithful(m: Micro, o: Outcome)
    requires m.pc != Idle && PcFits(m)
    ensures (Command(m, o).rt.state == Power.Deleted ==> !Command(m, o).onDisk) <==> Faithful(m, o)
  {
  }

  /**
    One faithful command: identity and desired state stay, a VM appears only under desired running and
    disappears only under desired deleted, and the runtime says "deleted" only when its VM is absent.
  */
  lemma CommandIsSafe(m: Micro, o: Outcome)
    requires m.pc != Idle && PcFits(m) && Faithful(m, o)
    ensures var m' := Command(m, o);
            && PcFits(m')
            && Remaining(m'.pc) < Remaining(m.pc)
            && m'.rt.id == m.rt.id && m'.rt.vmName == m.rt.vmName && m'.rt.slot == m.rt.slot && m'.rt.desired == m.rt.desired
            && (m'.onDisk && !m.onDisk ==> m.rt.desired == Desired.Running)
            && (m.onDisk && !m'.onDisk ==> m.rt.desired == Desired.Deleted)
            && (m'.rt.state == Power.Deleted ==> m.rt.desired == Desired.Deleted && !m'.onDisk)
            && (m'.rt.state == Power.Deleting ==> m.rt.desired == Desired.Deleted)
  {
  }

  // The whole reconcile.

  /** Every `tart get` met while driving is faithful. */
  ghost predicate FaithfulAlong(m: Micro, answers: seq<Outcome>)
    requires |answers| >= Remaining(m.pc)
    decreases Remaining(m.pc)
  {
    m.pc == Idle || (Faithful(m, answers[0]) && FaithfulAlong(Command(m, answers[0]), answers[1..]))
  }

  /** What `CommandIsSafe` says of one command holds from start to end. */
  lemma {:induction false} DriveIsSafe(m: Micro, answers: seq<Outcome>)
    requires |answers| >= Remaining(m.pc) && PcFits(m) && FaithfulAlong(m, answers)
    requires m.pc == Idle ==> m.rt.state == Power.Deleted ==> m.rt.desired == Desired.Deleted && !m.onDisk
    ensures var end := Drive(m, answers);
            && end.pc == Idle
            && end.rt.id == m.rt.id && end.rt.vmName == m.rt.vmName && end.rt.slot == m.rt.slot && end.rt.desired == m.rt.desired
            && (end.onDisk && !m.onDisk ==> m.rt.desired == Desired.Running)
            && (m.onDisk && !end.onDisk ==> m.rt.desired == Desired.Deleted)
            && (end.rt.state == Power.Deleted ==> m.rt.desired == Desired.Deleted && !end.onDisk)
    decreases Remaining(m.pc)
  {
    if m.pc != Idle {
      CommandIsSafe(m, answers[0]);
      DriveIsSafe(Command(m, answers[0]), answers[1..]);
    }
  }

  /** Every command met while driving succeeds and every `tart get` tells the truth. */
  ghost predicate Healthy(m: Micro, answers: seq<Outcome>)
    requires |answers| >= Remaining(m.pc)
    decreases Remaining(m.pc)
  {
    m.pc == Idle ||
    (answers[0].ok
     && (m.pc.RunGet? || m.pc.IpGet? || m.pc.StopGet? || m.pc.DeleteGet? || m.pc.DeleteRecheck? ==> answers[0].present == m.onDisk)
     && Healthy(Command(m, answers[0]), answers[1..]))
  }

  /** The state a healthy reconcile ends in: what was desired, or launched and still without an address. */
  ghost predicate Reaches(end: Micro, desired: Desired) {
    match desired
    case Running => end.onDisk && (end.rt.state == Power.Running || (end.rt.state == Power.Starting && end.rt.hasProcess))
    case Stopped => end.rt.state == Power.Stopped && end.rt.ip == None && !end.rt.hasProcess
    case Deleted => end.rt.state == Power.Deleted && !end.onDisk && end.rt.ip == None && !end.rt.hasProcess
    case Unknown(_) => end.rt.state == Power.Error
  }

  /** Past its clone, a runtime that is to run has its VM. */
  predicate OnPath(m: Micro) {
    && PcFits(m)
    && (RunPath(m.pc) && !m.pc.RunGet? && !m.pc.RunClone? ==> m.onDisk)
    && (m.pc.RunClone? ==> !m.onDisk)
    && (m.pc.DeleteStop? || m.pc.DeleteRecheck? || m.pc.DeleteDelete? ==> m.onDisk)
    && (m.pc.IpWait? ==> m.rt.hasProcess)
  }

  lemma {:induction false} HealthyDriveReaches(m: Micro, answers: seq<Outcome>)
    requires |answers| >= Remaining(m.pc) && OnPath(m) && Healthy(m, answers)
    requires m.pc == Idle ==> Reaches(m, m.rt.desired)
    ensures Reaches(Drive(m, answers), m.rt.desired)
    decreases Remaining(m.pc)
  {
    if m.pc != Idle {
      HealthyCommand(m, answers[0]);
      HealthyDriveReaches(Command(m, answers[0]), answers[1..]);
    }
  }

  lemma HealthyCommand(m: Micro, o: Outcome)
    requires m.pc != Idle && OnPath(m) && o.ok
    requires m.pc.RunGet? || m.pc.IpGet? || m.pc.StopGet? || m.pc.DeleteGet? || m.pc.DeleteRecheck? ==> o.present == m.onDisk
    ensures var m' := Command(m, o);
            && OnPath(m') && m'.rt.desired == m.rt.desired
            && (m'.pc == Idle ==> Reaches(m', m.rt.desired))
  {
  }

  /** On a healthy host one reconcile brings the VM to the desired state. */
  lemma ReconcileReachesDesired(rt: Runtime, onDisk: bool, answers: seq<Outcome>)
    requires |answers| >= 8
    requires var (started, pc) := Begin(rt); Healthy(Micro(started, pc, onDisk), answers)
    ensures Reaches(Reconciled(rt, onDisk, answers), rt.desired)
  {
    var (started, pc) := Begin(rt);
    HealthyDriveReaches(Micro(started, pc, onDisk), answers);
  }
}
