/**
  The CPU budget of a host. A ledger follows every command of a run: the share a VM was last configured with, and the
  share it was launched with. The configured number of VMs may change with every restart of the worker.
*/
module ProtocolBudget {
  import opened Types
  import opened Table
  import opened Runtime
  import opened Protocol
  import opened ProtocolInvariant
  import opened ProtocolSafety
  import opened ProtocolProgress
  import S = Sets

  // Shares.

  function AtLeastOne(n: int): (r: int)
    ensures r >= 1 && r >= n
  {
    if n > 1 then n else 1
  }

  /** The CPUs a VM is configured with. */
  function TargetCPUCount(physicalCores: int, vmCount: int): int {
    AtLeastOne((AtLeastOne(physicalCores) - 1) / AtLeastOne(vmCount))
  }

  lemma MulMonotone(a: nat, b: nat, c: nat)
    requires a <= b
    ensures a * c <= b * c
  {
    assert b * c == a * c + (b - a) * c;
  }

  lemma ShareTimesCount(total: nat, parts: nat)
    requires 0 < parts
    ensures parts * (total / parts) <= total
  {
    assert total == parts * (total / parts) + total % parts;
  }

  /** A full pool fits beside one reserved core exactly when it has fewer VMs than the host has cores. */
  lemma FullPoolFitsIff(physicalCores: int, configured: int, pool: int)
    requires physicalCores >= 1 && 1 <= pool <= configured
    ensures pool * TargetCPUCount(physicalCores, configured) <= physicalCores - 1 <==> pool <= physicalCores - 1
  {
    var share := (physicalCores - 1) / configured;
    if share >= 1 {
      ShareTimesCount(physicalCores - 1, configured);
      MulMonotone(pool, configured, share);
      MulMonotone(1, share, pool);
    }
  }

  lemma FitsInto(total: nat, parts: nat, q: nat)
    requires 0 < parts && q * parts <= total
    ensures q <= total / parts
  {
    var d := total / parts;
    assert total == parts * d + total % parts;
    if d + 1 <= q {
      MulMonotone(d + 1, q, parts);
    }
  }

  lemma SmallerShare(total: nat, pool: nat, configured: nat)
    requires 1 <= pool <= configured
    ensures total / configured <= total / pool
  {
    var q := total / configured;
    ShareTimesCount(total, configured);
    MulMonotone(pool, configured, q);
    FitsInto(total, pool, q);
  }

  /** A worker configured for more VMs gives each a share no larger. */
  lemma ShareShrinks(physicalCores: int, pool: int, configured: int)
    requires 1 <= pool <= configured
    ensures TargetCPUCount(physicalCores, configured) <= TargetCPUCount(physicalCores, pool)
  {
    SmallerShare(AtLeastOne(physicalCores) - 1, pool, configured);
  }

  /** It is the largest share with which so many VMs leave one core free. */
  lemma ShareIsLargest(physicalCores: int, vmCount: int)
    requires 1 <= vmCount <= physicalCores - 1
    ensures var share := TargetCPUCount(physicalCores, vmCount);
            vmCount * share <= physicalCores - 1 < vmCount * (share + 1)
  {
    var total := physicalCores - 1;
    ShareTimesCount(total, vmCount);
    FitsInto(total, vmCount, 1);
    assert total == vmCount * (total / vmCount) + total % vmCount;
  }

  /** With more VMs than spare cores each gets one core, and so does a host without cores to spare. */
  lemma ShareIsAtLeastOne(physicalCores: int, vmCount: int)
    requires physicalCores - 1 < vmCount || vmCount <= 0
    ensures TargetCPUCount(physicalCores, vmCount) == if vmCount <= 0 && physicalCores > 2 then physicalCores - 1 else 1
  {
    if vmCount >= 1 {
      SmallTotal(AtLeastOne(physicalCores) - 1, vmCount);
    }
  }

  lemma SmallTotal(total: nat, parts: nat)
    requires total < parts
    ensures total / parts == 0
  {
    ShareTimesCount(total, parts);
  }

  // The ledger.

  /** `launched` has no share for a VM that was launched without having been configured. */
  datatype Ledger = Ledger(configured: map<VMName, int>, launched: map<VMName, Option<int>>)

  /**
    What a command does to it. A configure that fails, like a new clone, leaves the configuration unknown; a launch uses
    what is configured then; a stop or a delete ends what was launched.
  */
  function Record(l: Ledger, m: Micro, o: Outcome, share: int): Ledger {
    var n := m.rt.vmName;
    match m.pc
    case RunClone => if o.ok || o.effect then l.(configured := l.configured - {n}) else l
    case RunConfigure => l.(configured := if o.ok then l.configured[n := share] else l.configured - {n})
    case Reconfigure => l.(configured := if o.ok then l.configured[n := share] else l.configured - {n})
    case Launch =>
      if o.ok then l.(launched := l.launched[n := if n in l.configured then Some(l.configured[n]) else None]) else l
    case StopStop => if o.ok then l.(launched := l.launched - {n}) else l
    case DeleteStop => if o.ok then l.(launched := l.launched - {n}) else l
    case DeleteDelete => if o.ok || o.effect then Ledger(l.configured - {n}, l.launched - {n}) else l
    case _ => l
  }

  /** What any step does to the ledger of a host, when its worker is configured for so many VMs. */
  ghost function RecordStep(s: State, step: Step, w: WorkerId, l: Ledger, cores: int, configured: int): Ledger
    requires Guard(s, step)
  {
    if step.RunCommand? && step.worker == w
    then Record(l, Current(s.hosts[w]), step.answer, TargetCPUCount(cores, configured))
    else l
  }

  /** The ledger of a host after `i` steps; `config` is the number of VMs the worker is configured for at each step. */
  ghost function LedgerAt(states: seq<State>, steps: seq<Step>, w: WorkerId, cores: int, config: nat -> int, i: nat): Ledger
    requires IsRun(states, steps) && i < |states|
  {
    if i == 0 then Ledger(map[], map[])
    else RecordStep(states[i-1], steps[i-1], w, LedgerAt(states, steps, w, cores, config, i - 1), cores, config(i - 1))
  }

  /** The next command of the worker is this one, for this VM. */
  predicate Before(p: Option<Proc>, pc: Pc, n: VMName) {
    && p.Some? && p.value.phase.Reconciling? && p.value.phase.current.Some?
    && p.value.phase.current.value.pc == pc
    && p.value.phase.current.value.id in p.value.runtimes && p.value.runtimes[p.value.phase.current.value.id].vmName == n
  }

  /** Commands that come only after another one succeeded. */
  predicate Late(pc: Pc) {
    pc == Launch || pc == DeleteRecheck || pc == DeleteDelete
  }

  /** A VM about to be launched is configured; one about to be deleted was stopped. */
  ghost predicate LedgerFits(l: Ledger, p: Option<Proc>) {
    forall pc, n :: Late(pc) && Before(p, pc, n) ==> if pc == Launch then n in l.configured else n !in l.launched
  }

  lemma SuccessComesFirst(l: Ledger, m: Micro, o: Outcome, share: int)
    requires m.pc != Idle && (m.pc == DeleteRecheck ==> m.rt.vmName !in l.launched)
    ensures var m', l' := Command(m, o), Record(l, m, o, share);
            Late(m'.pc) ==> if m'.pc == Launch then m'.rt.vmName in l'.configured else m'.rt.vmName !in l'.launched
  {
  }

  lemma CommandKeepsFit(h: Host, l: Ledger, o: Outcome, share: int)
    requires h.proc.Some? && h.proc.value.phase.Reconciling? && h.proc.value.phase.current.Some?
    requires h.proc.value.phase.current.value.id in h.proc.value.runtimes && Current(h).pc != Idle && LedgerFits(l, h.proc)
    ensures LedgerFits(Record(l, Current(h), o, share), Moved(h, Command(Current(h), o)).proc)
  {
    var m := Current(h);
    assert Before(h.proc, m.pc, m.rt.vmName);
    SuccessComesFirst(l, m, o, share);
  }

  /** The other steps of a worker never put it in front of such a command. */
  lemma OwnStepNeverLate(s: State, step: Step, w: WorkerId)
    requires Guard(s, step) && ByWorker(step, w) && !step.RunCommand? && w in Next(s, step).hosts
    ensures forall pc, n :: Late(pc) ==> !Before(Next(s, step).hosts[w].proc, pc, n)
  {
    if OfHeartbeat(step) {
      HeartbeatNeverLate(s, step, w);
    } else {
      LoopNeverLate(s, step, w);
    }
  }

  /** The process is in front of a command, and it is the first of a reconcile. */
  predicate NotLate(p: Option<Proc>) {
    p.Some? && p.value.phase.Reconciling? && p.value.phase.current.Some? ==> !Late(p.value.phase.current.value.pc)
  }

  lemma HeartbeatNeverLate(s: State, step: Step, w: WorkerId)
    requires Guard(s, step) && ByWorker(step, w) && OfHeartbeat(step) && w in Next(s, step).hosts
    ensures NotLate(Next(s, step).hosts[w].proc)
  {
  }

  lemma LoopNeverLate(s: State, step: Step, w: WorkerId)
    requires Guard(s, step) && ByWorker(step, w) && !OfHeartbeat(step) && !step.RunCommand? && w in Next(s, step).hosts
    ensures NotLate(Next(s, step).hosts[w].proc)
  {
  }

  lemma FreshHostIsIdle(s: State, step: Step, w: WorkerId)
    requires Guard(s, step) && w !in s.hosts && w in Next(s, step).hosts && !ByWorker(step, w)
    ensures Next(s, step).hosts[w].proc.None?
  {
  }

  ghost predicate FitsAt(s: State, w: WorkerId, l: Ledger) {
    w in s.hosts ==> LedgerFits(l, s.hosts[w].proc)
  }

  lemma StepKeepsFit(s: State, step: Step, w: WorkerId, l: Ledger, cores: int, configured: int)
    requires HostsOk(s) && Guard(s, step) && FitsAt(s, w, l)
    ensures FitsAt(Next(s, step), w, RecordStep(s, step, w, l, cores, configured))
  {
    if step.RunCommand? && step.worker == w {
      CommandKeepsFit(s.hosts[w], l, step.answer, TargetCPUCount(cores, configured));
    } else if w in Next(s, step).hosts {
      if ByWorker(step, w) {
        OwnStepNeverLate(s, step, w);
      } else if w in s.hosts {
        ElsewhereKeepsProc(s, step, w);
      } else {
        FreshHostIsIdle(s, step, w);
      }
    }
  }

  lemma {:induction false} LedgerAlwaysFits(states: seq<State>, steps: seq<Step>, w: WorkerId, cores: int, config: nat -> int, i: nat)
    requires IsRun(states, steps) && i < |states|
    ensures FitsAt(states[i], w, LedgerAt(states, steps, w, cores, config, i))
  {
    if i > 0 {
      LedgerAlwaysFits(states, steps, w, cores, config, i - 1);
      FitStep(states, steps, w, cores, config, i - 1);
    }
  }

  lemma FitStep(states: seq<State>, steps: seq<Step>, w: WorkerId, cores: int, config: nat -> int, k: nat)
    requires IsRun(states, steps) && k < |steps| && FitsAt(states[k], w, LedgerAt(states, steps, w, cores, config, k))
    ensures FitsAt(states[k+1], w, LedgerAt(states, steps, w, cores, config, k + 1))
  {
    RunsKeepInv(states, steps, k);
    StepKeepsFit(states[k], steps[k], w, LedgerAt(states, steps, w, cores, config, k), cores, config(k));
  }

  // Stopped means stopped.

  /** `tart get` does not deny a VM that is running. */
  predicate Truthful(l: Ledger, m: Micro, o: Outcome) {
    (m.pc == StopGet || m.pc == DeleteGet) && m.rt.vmName in l.launched ==> o.present
  }

  lemma SettledIsDown(l: Ledger, m: Micro, o: Outcome, share: int)
    requires m.pc != Idle && PcFits(m)
    requires m.pc == DeleteRecheck || m.pc == DeleteDelete ==> m.rt.vmName !in l.launched
    requires Command(m, o).rt.state == Power.Stopped || Command(m, o).rt.state == Power.Deleted
    ensures m.rt.vmName !in Record(l, m, o, share).launched <==> Truthful(l, m, o)
  {
  }

  /**
    A reconcile that ends "stopped" or "deleted" has stopped its VM exactly when its `tart get` did not deny a running one.
  */
  lemma StoppedIsDownIff(states: seq<State>, steps: seq<Step>, k: nat, w: WorkerId, cores: int, config: nat -> int)
    requires IsRun(states, steps) && k < |steps| && steps[k].RunCommand? && steps[k].worker == w
    requires Command(Current(states[k].hosts[w]), steps[k].answer).rt.state in {Power.Stopped, Power.Deleted}
    ensures Current(states[k].hosts[w]).rt.vmName !in LedgerAt(states, steps, w, cores, config, k + 1).launched <==>
      Truthful(LedgerAt(states, steps, w, cores, config, k), Current(states[k].hosts[w]), steps[k].answer)
  {
    var l, command := LedgerAt(states, steps, w, cores, config, k), Current(states[k].hosts[w]);
    RunsKeepInv(states, steps, k);
    CurrentFits(states[k], w, steps[k].answer);
    LedgerAlwaysFits(states, steps, w, cores, config, k);
    assert Before(states[k].hosts[w].proc, command.pc, command.rt.vmName);
    SettledIsDown(l, command, steps[k].answer, TargetCPUCount(cores, config(k)));
  }

  /** This step launches the VM. */
  predicate Launches(s: State, step: Step, w: WorkerId, n: VMName)
    requires Guard(s, step)
  {
    step.RunCommand? && step.worker == w && Current(s.hosts[w]).pc == Launch && Current(s.hosts[w]).rt.vmName == n
  }

  lemma OnlyLaunchesLaunch(s: State, step: Step, w: WorkerId, l: Ledger, cores: int, configured: int, n: VMName)
    requires Guard(s, step) && n !in l.launched && !Launches(s, step, w, n)
    ensures n !in RecordStep(s, step, w, l, cores, configured).launched
  {
  }

  lemma {:induction false} DownThroughout(ledgers: seq<Ledger>, a: nat, b: nat, n: VMName)
    requires a <= b < |ledgers| && n !in ledgers[a].launched
    requires forall q :: a <= q < b ==> (n !in ledgers[q].launched ==> n !in ledgers[q+1].launched)
    ensures n !in ledgers[b].launched
  {
    if a < b {
      DownThroughout(ledgers, a, b - 1, n);
      assert n !in ledgers[b-1].launched ==> n !in ledgers[b-1+1].launched;
    }
  }

  lemma DownStep(states: seq<State>, steps: seq<Step>, w: WorkerId, cores: int, config: nat -> int, q: nat, n: VMName)
    requires IsRun(states, steps) && q < |steps| && !Launches(states[q], steps[q], w, n)
    requires n !in LedgerAt(states, steps, w, cores, config, q).launched
    ensures n !in LedgerAt(states, steps, w, cores, config, q + 1).launched
  {
    OnlyLaunchesLaunch(states[q], steps[q], w, LedgerAt(states, steps, w, cores, config, q), cores, config(q), n);
  }

  lemma DownUntilLaunched(states: seq<State>, steps: seq<Step>, w: WorkerId, cores: int, config: nat -> int, a: nat, b: nat, n: VMName)
    requires IsRun(states, steps) && a <= b < |states| && n !in LedgerAt(states, steps, w, cores, config, a).launched
    requires forall q :: a <= q < b ==> !Launches(states[q], steps[q], w, n)
    ensures n !in LedgerAt(states, steps, w, cores, config, b).launched
  {
    var ledgers := seq(b + 1, i requires 0 <= i <= b => LedgerAt(states, steps, w, cores, config, i));
    forall q | a <= q < b ensures n !in ledgers[q].launched ==> n !in ledgers[q+1].launched {
      if n !in ledgers[q].launched {
        DownStep(states, steps, w, cores, config, q, n);
      }
    }
    DownThroughout(ledgers, a, b, n);
  }

  /** And then the VM stays down until it is launched again. */
  lemma StoppedStaysDown(states: seq<State>, steps: seq<Step>, k: nat, m: nat, w: WorkerId, cores: int, config: nat -> int)
    requires IsRun(states, steps) && k < m < |states| && steps[k].RunCommand? && steps[k].worker == w
    requires Truthful(LedgerAt(states, steps, w, cores, config, k), Current(states[k].hosts[w]), steps[k].answer)
    requires Command(Current(states[k].hosts[w]), steps[k].answer).rt.state in {Power.Stopped, Power.Deleted}
    requires forall q :: k < q < m ==> !Launches(states[q], steps[q], w, Current(states[k].hosts[w]).rt.vmName)
    ensures Current(states[k].hosts[w]).rt.vmName !in LedgerAt(states, steps, w, cores, config, m).launched
  {
    StoppedIsDownIff(states, steps, k, w, cores, config);
    DownUntilLaunched(states, steps, w, cores, config, k + 1, m, Current(states[k].hosts[w]).rt.vmName);
  }

  // Shares stay within what the pool allows.

  predicate WithinCap(share: int, cap: int) {
    1 <= share <= cap
  }

  ghost predicate SharesOk(l: Ledger, cap: int) {
    && (forall n :: n in l.configured ==> WithinCap(l.configured[n], cap))
    && (forall n :: n in l.launched ==> l.launched[n].Some? && WithinCap(l.launched[n].value, cap))
  }

  lemma RecordKeepsShares(l: Ledger, m: Micro, o: Outcome, share: int, cap: int)
    requires SharesOk(l, cap) && WithinCap(share, cap) && (m.pc == Launch ==> m.rt.vmName in l.configured)
    ensures SharesOk(Record(l, m, o, share), cap)
  {
  }

  /** Wherever the worker is registered its pool is `pool`, and it is configured for at least that many VMs. */
  ghost predicate ConfiguredFor(states: seq<State>, w: WorkerId, config: nat -> int, pool: int, i: nat)
    requires i < |states|
  {
    forall k :: 0 <= k <= i && w in states[k].pools ==> states[k].pools[w] == pool <= config(k)
  }

  lemma StepKeepsShares(s: State, step: Step, w: WorkerId, l: Ledger, cores: int, configured: int, pool: int)
    requires HostsOk(s) && Guard(s, step) && pool >= 1 && SharesOk(l, TargetCPUCount(cores, pool)) && FitsAt(s, w, l)
    requires w in s.pools ==> pool <= configured
    ensures SharesOk(RecordStep(s, step, w, l, cores, configured), TargetCPUCount(cores, pool))
  {
    if step.RunCommand? && step.worker == w {
      var m := Current(s.hosts[w]);
      assert Before(s.hosts[w].proc, m.pc, m.rt.vmName);
      ShareShrinks(cores, pool, configured);
      RecordKeepsShares(l, m, step.answer, TargetCPUCount(cores, configured), TargetCPUCount(cores, pool));
    }
  }

  lemma {:induction false} SharesHold(states: seq<State>, steps: seq<Step>, w: WorkerId, cores: int, config: nat -> int, pool: int, i: nat)
    requires IsRun(states, steps) && i < |states| && pool >= 1 && ConfiguredFor(states, w, config, pool, i)
    ensures SharesOk(LedgerAt(states, steps, w, cores, config, i), TargetCPUCount(cores, pool))
  {
    if i > 0 {
      SharesHold(states, steps, w, cores, config, pool, i - 1);
      SharesStep(states, steps, w, cores, config, pool, i - 1);
    }
  }

  lemma SharesStep(states: seq<State>, steps: seq<Step>, w: WorkerId, cores: int, config: nat -> int, pool: int, k: nat)
    requires IsRun(states, steps) && k < |steps| && pool >= 1 && (w in states[k].pools ==> pool <= config(k))
    requires SharesOk(LedgerAt(states, steps, w, cores, config, k), TargetCPUCount(cores, pool))
    ensures SharesOk(LedgerAt(states, steps, w, cores, config, k + 1), TargetCPUCount(cores, pool))
  {
    RunsKeepInv(states, steps, k);
    LedgerAlwaysFits(states, steps, w, cores, config, k);
    StepKeepsShares(states[k], steps[k], w, LedgerAt(states, steps, w, cores, config, k), cores, config(k), pool);
  }

  predicate SamePool(s: State, s': State, w: WorkerId) {
    w in s.pools ==> w in s'.pools && s'.pools[w] == s.pools[w]
  }

  lemma {:induction false} SamePoolThroughout(states: seq<State>, k: nat, i: nat, w: WorkerId)
    requires k <= i < |states| && forall j :: k <= j < i ==> SamePool(states[j], states[j+1], w)
    ensures SamePool(states[k], states[i], w)
  {
    if k < i {
      SamePoolThroughout(states, k, i - 1, w);
      assert SamePool(states[i-1], states[i-1+1], w);
    }
  }

  lemma PoolsNeverChange(states: seq<State>, steps: seq<Step>, k: nat, i: nat, w: WorkerId)
    requires IsRun(states, steps) && k <= i < |states| && w in states[k].pools
    ensures w in states[i].pools && states[i].pools[w] == states[k].pools[w]
  {
    forall j | k <= j < i ensures SamePool(states[j], states[j+1], w) {
      if w in states[j].pools {
        PoolsStay(states, steps, j, w);
      }
    }
    SamePoolThroughout(states, k, i, w);
  }

  // The budget.

  /** The sum of the shares of some VMs. */
  ghost function SumOf(shares: map<VMName, Option<int>>, vms: set<VMName>): int
    requires forall n :: n in vms ==> n in shares && shares[n].Some?
    decreases |vms|
  {
    if vms == {} then 0 else
      var n :| n in vms;
      shares[n].value + SumOf(shares, vms - {n})
  }

  lemma {:induction false} SumIsBounded(shares: map<VMName, Option<int>>, vms: set<VMName>, cap: int)
    requires forall n :: n in vms ==> n in shares && shares[n].Some? && shares[n].value <= cap
    ensures SumOf(shares, vms) <= |vms| * cap
    decreases |vms|
  {
    if vms != {} {
      var n :| n in vms && SumOf(shares, vms) == shares[n].value + SumOf(shares, vms - {n});
      SumIsBounded(shares, vms - {n}, cap);
      assert |vms - {n}| == |vms| - 1;
      assert |vms| * cap == (|vms| - 1) * cap + cap;
    }
  }

  /**
    In every reachable state every VM on a host that was launched was configured before, and the shares they were
    launched with leave one core free: as long as the worker was always configured for at least its registered pool,
    and that pool has fewer VMs than the host has cores.
  */
  lemma HostCPUBudget(states: seq<State>, steps: seq<Step>, i: nat, w: WorkerId, cores: int, config: nat -> int)
    requires IsRun(states, steps) && i < |states| && w in states[i].hosts && w in states[i].pools && cores >= 1
    requires forall k :: 0 <= k <= i && w in states[k].pools ==> states[k].pools[w] <= config(k)
    requires states[i].pools[w] <= cores - 1
    ensures var launched := LedgerAt(states, steps, w, cores, config, i).launched;
            var running := states[i].hosts[w].disk * launched.Keys;
            && (forall n :: n in running ==> launched[n].Some? && launched[n].value >= 1)
            && SumOf(launched, running) <= cores - 1
  {
    HostCapacity(states, steps, i, w);
    var pool := states[i].pools[w];
    var launched := LedgerAt(states, steps, w, cores, config, i).launched;
    var running := states[i].hosts[w].disk * launched.Keys;
    S.SubsetSize(running, states[i].hosts[w].disk);
    if pool >= 1 {
      forall k | 0 <= k <= i && w in states[k].pools ensures states[k].pools[w] == pool <= config(k) {
        PoolsNeverChange(states, steps, k, i, w);
      }
      SharesHold(states, steps, w, cores, config, pool, i);
      FitsInCap(launched, running, cores, pool);
    } else {
      assert running == {};
    }
  }

  lemma FitsInCap(launched: map<VMName, Option<int>>, running: set<VMName>, cores: int, pool: int)
    requires cores >= 1 && 1 <= pool <= cores - 1 && |running| <= pool
    requires forall n :: n in running ==> n in launched && launched[n].Some? && WithinCap(launched[n].value, TargetCPUCount(cores, pool))
    ensures SumOf(launched, running) <= cores - 1
  {
    var cap := TargetCPUCount(cores, pool);
    SumIsBounded(launched, running, cap);
    MulMonotone(|running|, pool, cap);
    FullPoolFitsIff(cores, pool, pool);
  }
}
