/**
  The proxy session manager one critical section at a time: looking a session up and storing a connection in it are two
  sections, and so are taking it out of the table and ending it. Closing many sessions first collects their ids, in a
  section of its own. What holds at this grain, and exactly what does not.
*/
module ProxySections {
  import opened Types
  import opened Proxy

  /**
    A thread between two sections: it holds the session it found, or the ids it collected. `todo` is what it collected
    and has not yet closed; a single close has none.
  */
  datatype Thread =
    | Connecting(id: SessionId, role: string, conn: Conn)
    | Ending(id: SessionId, todo: set<SessionId>)
    | Closing(todo: set<SessionId>)

  /** What a collecting section looks for: the sessions of a worker, of a VM, or the stale ones. */
  datatype Wanted = OfWorker(worker: WorkerId) | OfVM(vmId: string) | StaleAt(now: int)

  function Collected(view: View, wanted: Wanted): set<SessionId> {
    match wanted
    case OfWorker(worker) => WorkerMatches(view, worker)
    case OfVM(vmId) => VMMatches(view, vmId)
    case StaleAt(now) => Stale(view, now)
  }

  /** `sessions` is every session ever created, `table` the ids still in the manager's map. */
  datatype State = State(table: set<SessionId>, sessions: View, threads: map<nat, Thread>)

  datatype Step =
    | Make(id: SessionId, vmId: string, worker: WorkerId, now: int)
    | LookUp(t: nat, id: SessionId, role: string, conn: Conn)
    | StoreConn(t: nat)
    | TakeOut(t: nat, id: SessionId)
    | EndSession(t: nat)
    | Collect(t: nat, wanted: Wanted)
    | TakeNext(t: nat, id: SessionId)

  predicate Guard(s: State, step: Step) {
    match step
    case Make(id, _, _, _) => id !in s.sessions
    case LookUp(t, _, _, _) => t !in s.threads
    case StoreConn(t) => t in s.threads && s.threads[t].Connecting? && s.threads[t].id in s.sessions
    case TakeOut(t, _) => t !in s.threads
    case EndSession(t) => t in s.threads && s.threads[t].Ending? && s.threads[t].id in s.sessions
    case Collect(t, _) => t !in s.threads
    case TakeNext(t, id) => t in s.threads && s.threads[t].Closing? && id in s.threads[t].todo
  }

  /** The sessions in the table. */
  function Live(s: State): View {
    map id | id in s.table && id in s.sessions :: s.sessions[id]
  }

  /** A thread goes on with what it has left to close. */
  function GoOn(threads: map<nat, Thread>, t: nat, todo: set<SessionId>): map<nat, Thread> {
    if todo == {} then threads - {t} else threads[t := Closing(todo)]
  }

  function Next(s: State, step: Step): State
    requires Guard(s, step)
  {
    match step
    case Make(id, vmId, worker, now) =>
      s.(table := s.table + {id}, sessions := s.sessions[id := Created(vmId, worker, now)])
    case LookUp(t, id, role, conn) =>
      if id in s.table then s.(threads := s.threads[t := Connecting(id, role, conn)]) else s
    case StoreConn(t) =>
      var c := s.threads[t];
      s.(sessions := s.sessions[c.id := Connected(s.sessions[c.id], c.role, c.conn)], threads := s.threads - {t})
    case TakeOut(t, id) =>
      if id in s.table then s.(table := s.table - {id}, threads := s.threads[t := Ending(id, {})]) else s
    case EndSession(t) =>
      var id := s.threads[t].id;
      s.(sessions := s.sessions[id := Ended(s.sessions[id])], threads := GoOn(s.threads, t, s.threads[t].todo))
    case Collect(t, wanted) => s.(threads := GoOn(s.threads, t, Collected(Live(s), wanted)))
    case TakeNext(t, id) =>
      var todo := s.threads[t].todo - {id};
      if id in s.table then s.(table := s.table - {id}, threads := s.threads[t := Ending(id, todo)])
      else s.(threads := GoOn(s.threads, t, todo))
  }

  predicate Init(s: State) {
    s == State({}, map[], map[])
  }

  ghost predicate IsRun(states: seq<State>, steps: seq<Step>) {
    && |states| == |steps| + 1
    && Init(states[0])
    && forall i :: 0 <= i < |steps| ==> Guard(states[i], steps[i]) && states[i+1] == Next(states[i], steps[i])
  }

  predicate Both(s: Session) {
    s.client.Some? && s.workerSide.Some?
  }

  /** `ready` is closed exactly when both sides are connected; until it ends a session is active exactly then too. */
  predicate SessionOk(s: Session) {
    && (s.readyClosed <==> Both(s))
    && (if s.doneClosed then s.phase == Closed || (s.phase == Active && Both(s)) else Open(s))
  }

  /** A session that is out of the table has one thread that will end it, or has ended. */
  ghost predicate Inv(s: State) {
    && s.table <= s.sessions.Keys
    && (forall id :: id in s.sessions ==> SessionOk(s.sessions[id]))
    && (forall id :: id in s.table ==> !s.sessions[id].doneClosed)
    && (forall t :: t in s.threads && !s.threads[t].Closing? ==> s.threads[t].id in s.sessions)
    && (forall t :: t in s.threads && s.threads[t].Ending? ==> s.threads[t].id !in s.table && !s.sessions[s.threads[t].id].doneClosed)
    && (forall t, u :: t in s.threads && u in s.threads && s.threads[t].Ending? && s.threads[u].Ending? && s.threads[t].id == s.threads[u].id ==> t == u)
  }

  lemma StoreKeepsInv(s: State, t: nat)
    requires Inv(s) && Guard(s, StoreConn(t))
    ensures Inv(Next(s, StoreConn(t)))
  {
    var c := s.threads[t];
    StoredIsOk(s.sessions[c.id], c.role, c.conn);
  }

  lemma StoredIsOk(s: Session, role: string, conn: Conn)
    requires SessionOk(s)
    ensures SessionOk(Connected(s, role, conn)) && Connected(s, role, conn).doneClosed == s.doneClosed
  {
  }

  /** The threads after one went on with its batch. */
  lemma GoOnKeeps(threads: map<nat, Thread>, t: nat, todo: set<SessionId>)
    ensures forall u :: u in GoOn(threads, t, todo) && !GoOn(threads, t, todo)[u].Closing? ==>
      u != t && u in threads && GoOn(threads, t, todo)[u] == threads[u]
  {
  }

  lemma EndKeepsInv(s: State, t: nat)
    requires Inv(s) && Guard(s, EndSession(t))
    ensures Inv(Next(s, EndSession(t)))
  {
    GoOnKeeps(s.threads, t, s.threads[t].todo);
  }

  lemma TakeNextKeepsInv(s: State, t: nat, id: SessionId)
    requires Inv(s) && Guard(s, TakeNext(t, id))
    ensures Inv(Next(s, TakeNext(t, id)))
  {
    GoOnKeeps(s.threads, t, s.threads[t].todo - {id});
  }

  lemma StepKeepsInv(s: State, step: Step)
    requires Inv(s) && Guard(s, step)
    ensures Inv(Next(s, step))
  {
    match step
    case StoreConn(t) => StoreKeepsInv(s, t);
    case EndSession(t) => EndKeepsInv(s, t);
    case TakeNext(t, id) => TakeNextKeepsInv(s, t, id);
    case Collect(t, wanted) => GoOnKeeps(s.threads, t, Collected(Live(s), wanted));
    case _ =>
  }

  lemma {:induction false} RunsKeepInv(states: seq<State>, steps: seq<Step>, i: nat)
    requires IsRun(states, steps) && i < |states|
    ensures Inv(states[i])
  {
    if i > 0 {
      RunsKeepInv(states, steps, i - 1);
      StepKeepsInv(states[i-1], steps[i-1]);
    }
  }

  /** Under every interleaving a session in the table is open: active exactly when both sides are there, and not ended. */
  lemma TableIsOpen(states: seq<State>, steps: seq<Step>, i: nat, id: SessionId)
    requires IsRun(states, steps) && i < |states| && id in states[i].table
    ensures id in states[i].sessions && Open(states[i].sessions[id])
  {
    RunsKeepInv(states, steps, i);
  }

  /** However many threads close a session, its `done` is closed once: whoever ends it finds it open. */
  lemma DoneIsClosedOnce(states: seq<State>, steps: seq<Step>, i: nat, id: SessionId)
    requires IsRun(states, steps) && i < |steps| && steps[i].EndSession? && states[i].threads[steps[i].t].id == id
    ensures id in states[i].sessions && !states[i].sessions[id].doneClosed && states[i+1].sessions[id].doneClosed
  {
    RunsKeepInv(states, steps, i);
  }

  // A connection that comes late.

  /** This step stores a connection in a session that has ended, and both sides are there then. */
  predicate Revives(s: State, step: Step, id: SessionId)
    requires Guard(s, step)
  {
    && step.StoreConn? && s.threads[step.t].id == id && s.sessions[id].doneClosed
    && Both(Connected(s.sessions[id], s.threads[step.t].role, s.threads[step.t].conn))
  }

  ghost predicate WasRevived(states: seq<State>, steps: seq<Step>, id: SessionId, m: nat)
    requires IsRun(states, steps) && m < |states|
  {
    exists q :: 0 <= q < m && Revives(states[q], steps[q], id)
  }

  lemma RevivedStep(states: seq<State>, steps: seq<Step>, id: SessionId, m: nat)
    requires IsRun(states, steps) && m < |steps|
    ensures WasRevived(states, steps, id, m + 1) <==> WasRevived(states, steps, id, m) || Revives(states[m], steps[m], id)
  {
    if WasRevived(states, steps, id, m) {
      var q :| 0 <= q < m && Revives(states[q], steps[q], id);
      assert q < m + 1;
    }
  }

  lemma EndedStep(s: State, step: Step, id: SessionId)
    requires Inv(s) && Guard(s, step) && id in Next(s, step).sessions && Next(s, step).sessions[id].doneClosed
    ensures id in s.sessions
    ensures if s.sessions[id].doneClosed
            then Next(s, step).sessions[id].phase == if Revives(s, step, id) then Active else s.sessions[id].phase
            else Next(s, step).sessions[id].phase == Closed && !Revives(s, step, id)
  {
  }

  lemma NotRevivedYet(states: seq<State>, steps: seq<Step>, id: SessionId, m: nat)
    requires IsRun(states, steps) && m < |states| && (id !in states[m].sessions || !states[m].sessions[id].doneClosed)
    ensures !WasRevived(states, steps, id, m)
  {
    forall q | 0 <= q < m ensures !Revives(states[q], steps[q], id) {
      if Revives(states[q], steps[q], id) {
        EndedStays(states, steps, q, m, id);
      }
    }
  }

  lemma {:induction false} EndedStays(states: seq<State>, steps: seq<Step>, i: nat, j: nat, id: SessionId)
    requires IsRun(states, steps) && i <= j < |states| && id in states[i].sessions && states[i].sessions[id].doneClosed
    ensures id in states[j].sessions && states[j].sessions[id].doneClosed
  {
    if i < j {
      EndedStays(states, steps, i, j - 1, id);
      assert states[j] == Next(states[j-1], steps[j-1]);
    }
  }

  /**
    A session that has ended stays closed exactly as long as no thread that looked it up before it was taken out
    completes its pair of connections afterwards; then it is marked active again.
  */
  lemma {:induction false} EndedStaysClosedIff(states: seq<State>, steps: seq<Step>, id: SessionId, m: nat)
    requires IsRun(states, steps) && m < |states| && id in states[m].sessions && states[m].sessions[id].doneClosed
    ensures states[m].sessions[id].phase == if WasRevived(states, steps, id, m) then Active else Closed
  {
    var s := states[m-1];
    RunsKeepInv(states, steps, m - 1);
    EndedStep(s, steps[m-1], id);
    RevivedStep(states, steps, id, m - 1);
    if s.sessions[id].doneClosed {
      EndedStaysClosedIff(states, steps, id, m - 1);
    } else {
      NotRevivedYet(states, steps, id, m - 1);
    }
  }

  /** Out of the table and held by no thread: collected ids do not matter any more. */
  ghost predicate Quiet(s: State, id: SessionId) {
    id in s.sessions && id !in s.table && forall t :: t in s.threads && !s.threads[t].Closing? ==> s.threads[t].id != id
  }

  lemma QuietStep(s: State, step: Step, id: SessionId)
    requires Inv(s) && Guard(s, step) && Quiet(s, id)
    ensures Quiet(Next(s, step), id) && Next(s, step).sessions[id] == s.sessions[id]
  {
  }

  /** Such a session never changes again. */
  lemma {:induction false} QuietIsFrozen(states: seq<State>, steps: seq<Step>, i: nat, j: nat, id: SessionId)
    requires IsRun(states, steps) && i <= j < |states| && Quiet(states[i], id)
    ensures Quiet(states[j], id) && states[j].sessions[id] == states[i].sessions[id]
  {
    if i < j {
      QuietIsFrozen(states, steps, i, j - 1, id);
      RunsKeepInv(states, steps, j - 1);
      QuietStep(states[j-1], steps[j-1], id);
    }
  }

  // Closing what was collected.

  /** What a thread has collected and not yet closed. */
  function Todo(s: State, t: nat): set<SessionId> {
    if t in s.threads && !s.threads[t].Connecting? then s.threads[t].todo else {}
  }

  lemma TodoShrinks(s: State, step: Step, t: nat)
    requires Guard(s, step) && !(step.Collect? && step.t == t)
    ensures Todo(Next(s, step), t) <= Todo(s, t)
  {
  }

  /** Step `k` takes out a session of the batch that step `c` collected. */
  ghost predicate TakesFromBatch(states: seq<State>, steps: seq<Step>, c: nat, k: nat, t: nat, id: SessionId)
    requires IsRun(states, steps)
  {
    && c < k < |steps| && steps[c].Collect? && steps[c].t == t && steps[k] == TakeNext(t, id) && id in states[k].table
    && forall q :: c < q < k ==> !(steps[q].Collect? && steps[q].t == t)
  }

  lemma {:induction false} TodoWasCollected(states: seq<State>, steps: seq<Step>, c: nat, m: nat, t: nat)
    requires IsRun(states, steps) && c < m < |states| && steps[c].Collect? && steps[c].t == t
    requires forall q :: c < q < m ==> !(steps[q].Collect? && steps[q].t == t)
    ensures Todo(states[m], t) <= Collected(Live(states[c]), steps[c].wanted)
  {
    if m > c + 1 {
      TodoWasCollected(states, steps, c, m - 1, t);
      TodoShrinks(states[m-1], steps[m-1], t);
    }
  }

  /** The fixed fields of a session, its open pair and the table only ever go one way. */
  ghost predicate Later(s: State, s': State, id: SessionId) {
    id in s.sessions ==>
      && id in s'.sessions
      && s'.sessions[id].worker == s.sessions[id].worker && s'.sessions[id].vmId == s.sessions[id].vmId
      && s'.sessions[id].createdAt == s.sessions[id].createdAt
      && (Both(s.sessions[id]) ==> Both(s'.sessions[id]))
  }

  lemma StepIsLater(s: State, step: Step, id: SessionId)
    requires Guard(s, step)
    ensures Later(s, Next(s, step), id)
  {
  }

  /** This step stores the connection that completes the pair of a session. */
  predicate Completes(s: State, step: Step, id: SessionId)
    requires Guard(s, step)
  {
    && step.StoreConn? && s.threads[step.t].id == id && !Both(s.sessions[id])
    && Both(Connected(s.sessions[id], s.threads[step.t].role, s.threads[step.t].conn))
  }

  lemma PairStep(s: State, step: Step, id: SessionId)
    requires Guard(s, step) && id in s.sessions
    ensures id in Next(s, step).sessions && (Both(Next(s, step).sessions[id]) <==> Both(s.sessions[id]) || Completes(s, step, id))
  {
  }

  ghost predicate CompletedBetween(states: seq<State>, steps: seq<Step>, id: SessionId, c: nat, m: nat)
    requires IsRun(states, steps) && c <= m < |states|
  {
    exists q :: c <= q < m && Completes(states[q], steps[q], id)
  }

  lemma {:induction false} PairIff(states: seq<State>, steps: seq<Step>, id: SessionId, c: nat, m: nat)
    requires IsRun(states, steps) && c <= m < |states| && id in states[c].sessions
    ensures id in states[m].sessions && Later(states[c], states[m], id)
    ensures Both(states[m].sessions[id]) <==> Both(states[c].sessions[id]) || CompletedBetween(states, steps, id, c, m)
  {
    if c < m {
      PairIff(states, steps, id, c, m - 1);
      StepIsLater(states[m-1], steps[m-1], id);
      PairStep(states[m-1], steps[m-1], id);
      if CompletedBetween(states, steps, id, c, m - 1) {
        var q :| c <= q < m - 1 && Completes(states[q], steps[q], id);
        assert c <= q < m;
      }
    }
  }

  /** A batch takes out only sessions it was meant to: of that worker, of that VM, or of that age. */
  lemma BatchTakesWanted(states: seq<State>, steps: seq<Step>, c: nat, k: nat, t: nat, id: SessionId)
    requires IsRun(states, steps) && TakesFromBatch(states, steps, c, k, t, id)
    ensures id in states[c].table && id in states[c].sessions && id in Collected(Live(states[c]), steps[c].wanted)
    ensures id in states[k].sessions && Later(states[c], states[k], id)
  {
    TodoWasCollected(states, steps, c, k, t);
    PairIff(states, steps, id, c, k);
  }

  /**
    A reaped session had never been active when it was collected; it is active when it is taken out exactly when a
    connection completed its pair between the two sections.
  */
  lemma ReapedWasActiveIff(states: seq<State>, steps: seq<Step>, c: nat, k: nat, t: nat, id: SessionId)
    requires IsRun(states, steps) && TakesFromBatch(states, steps, c, k, t, id) && steps[c].wanted.StaleAt?
    ensures id in states[c].sessions && states[c].sessions[id].phase == Pending
    ensures steps[c].wanted.now - states[c].sessions[id].createdAt > PENDING_SESSION_MAX_AGE
    ensures id in states[k].sessions && (states[k].sessions[id].phase == Active <==> CompletedBetween(states, steps, id, c, k))
  {
    BatchTakesWanted(states, steps, c, k, t, id);
    TableIsOpen(states, steps, c, id);
    TableIsOpen(states, steps, k, id);
    PairIff(states, steps, id, c, k);
  }

  lemma Then(states: seq<State>, steps: seq<Step>, step: Step) returns (more: seq<State>, moves: seq<Step>)
    requires IsRun(states, steps) && Guard(Final(states), step)
    ensures IsRun(more, moves) && Final(more) == Next(Final(states), step)
    ensures more == states + [Final(more)] && moves == steps + [step]
  {
    var s' := Next(Final(states), step);
    more, moves := states + [s'], steps + [step];
    forall i | 0 <= i < |moves| ensures Guard(more[i], moves[i]) && more[i+1] == Next(more[i], moves[i]) {
      if i < |steps| {
        assert more[i] == states[i] && more[i+1] == states[i+1] && moves[i] == steps[i];
      } else {
        assert more[i] == Final(states) && more[i+1] == s' && moves[i] == step;
      }
    }
  }

  /** It happens: the worker side looks the session up, the session is closed, and then the connection is stored. */
  lemma RevivalHappens() returns (states: seq<State>, steps: seq<Step>)
    ensures IsRun(states, steps)
    ensures var s := Final(states);
            "s" in s.sessions && "s" !in s.table && s.sessions["s"].doneClosed && s.sessions["s"].phase == Active && s.threads == map[]
  {
    states, steps := [State({}, map[], map[])], [];
    states, steps := Then(states, steps, Make("s", "vm", "w", 0));
    states, steps := Then(states, steps, LookUp(0, "s", "client", 0));
    states, steps := Then(states, steps, StoreConn(0));
    states, steps := Then(states, steps, LookUp(0, "s", "worker", 1));
    states, steps := Then(states, steps, TakeOut(1, "s"));
    states, steps := Then(states, steps, EndSession(1));
    states, steps := Then(states, steps, StoreConn(0));
  }

  /** A session with its client side connected, collected by the reaper. */
  lemma ReaperCollects() returns (states: seq<State>, steps: seq<Step>)
    ensures IsRun(states, steps) && |steps| == 4 && steps[3] == Collect(9, StaleAt(61))
    ensures Final(states) == State({"s"}, map["s" := Session("vm", "w", 0, Pending, Some(0), None, false, false)], map[9 := Closing({"s"})])
  {
    states, steps := [State({}, map[], map[])], [];
    states, steps := Then(states, steps, Make("s", "vm", "w", 0));
    states, steps := Then(states, steps, LookUp(0, "s", "client", 0));
    states, steps := Then(states, steps, StoreConn(0));
    assert Final(states) == State({"s"}, map["s" := Session("vm", "w", 0, Pending, Some(0), None, false, false)], map[]);
    assert Live(Final(states)) == Final(states).sessions;
    assert Stale(Live(Final(states)), 61) == {"s"};
    states, steps := Then(states, steps, Collect(9, StaleAt(61)));
  }

  /** And this: the worker side connects after the reaper collected the session and before it takes it out. */
  lemma ReaperClosesActive() returns (states: seq<State>, steps: seq<Step>, k: nat)
    ensures IsRun(states, steps) && TakesFromBatch(states, steps, 3, k, 9, "s") && steps[3] == Collect(9, StaleAt(61))
    ensures "s" in states[k].sessions && states[k].sessions["s"].phase == Active
  {
    states, steps := ReaperCollects();
    states, steps := Then(states, steps, LookUp(0, "s", "worker", 1));
    states, steps := Then(states, steps, StoreConn(0));
    states, steps := Then(states, steps, TakeNext(9, "s"));
    k := 6;
  }
}
