/**
  The worker's table of proxy relays. Relay tasks finish on their own while the loop polls and launches; the
  worker actor runs one step at a time and may be re-entered wherever a poll awaits.
*/
module Relays {
  import opened Types

  type SessionId = string
  type TaskId = nat

  /** Where the loop is: outside a poll, at the next polled session, or about to launch a relay for one. */
  datatype Poll = Idle | Polling(sessions: seq<SessionId>) | Launching(id: SessionId, sessions: seq<SessionId>)

  /** `running` is every relay task that has not yet marked itself finished. */
  datatype State = State(
    active: map<SessionId, TaskId>,
    finished: set<SessionId>,
    running: map<TaskId, SessionId>,
    poll: Poll
  )

  datatype Step =
    | PollReturns(sessions: seq<SessionId>)
    | Consider(resolved: bool)
    | Launch(task: TaskId)
    | MarkFinished(task: TaskId)
    | CleanUp

  predicate Guard(s: State, step: Step) {
    match step
    case PollReturns(_) => s.poll.Idle?
    case Consider(_) => s.poll.Polling? && s.poll.sessions != []
    case Launch(task) => s.poll.Launching? && task !in s.running && task !in s.active.Values
    case MarkFinished(task) => task in s.running
    case CleanUp => s.poll == Polling([])
  }

  function Next(s: State, step: Step): State
    requires Guard(s, step)
  {
    match step
    case PollReturns(sessions) => s.(poll := Polling(sessions))
    case Consider(resolved) =>
      // A session with a relay is skipped, and so is one whose target cannot be resolved.
      var id, rest := s.poll.sessions[0], s.poll.sessions[1..];
      s.(poll := if id in s.active || !resolved then Polling(rest) else Launching(id, rest))
    case Launch(task) =>
      s.(active := s.active[s.poll.id := task],
         running := s.running[task := s.poll.id],
         poll := Polling(s.poll.sessions))
    case MarkFinished(task) => s.(finished := s.finished + {s.running[task]}, running := s.running - {task})
    case CleanUp => s.(active := s.active - s.finished, finished := {}, poll := Idle)
  }

  predicate Init(s: State) {
    s == State(map[], {}, map[], Idle)
  }

  ghost predicate IsRun(states: seq<State>, steps: seq<Step>) {
    && |states| == |steps| + 1
    && Init(states[0])
    && forall i :: 0 <= i < |steps| ==> Guard(states[i], steps[i]) && states[i+1] == Next(states[i], steps[i])
  }

  /** Every table entry is either a running relay or a finished one waiting for clean-up, and no relay is outside. */
  ghost predicate Inv(s: State) {
    && s.finished <= s.active.Keys
    && (forall t :: t in s.running ==> s.running[t] in s.active && s.active[s.running[t]] == t && s.running[t] !in s.finished)
    && (forall id :: id in s.active ==> id in s.finished || (s.active[id] in s.running && s.running[s.active[id]] == id))
    && (s.poll.Launching? ==> s.poll.id !in s.active)
  }

  lemma StepKeepsInv(s: State, step: Step)
    requires Inv(s) && Guard(s, step)
    ensures Inv(Next(s, step))
  {
  }

  lemma {:induction false} RunsKeepInv(states: seq<State>, steps: seq<Step>, i: nat)
    requires IsRun(states, steps) && i < |states|
    ensures Inv(states[i])
  {
    if i > 0 {
      RunsKeepInv(states, steps, i - 1);
      StepKeepsInv(states[i-1], steps[i-1]);
    }
  }

  /**
    One relay per session: in every run at most one relay task of a session is unfinished, a relay is unfinished
    exactly when the table holds it and it has not been marked finished, and a launch never replaces a table entry.
  */
  lemma SingleRelayPerSession(states: seq<State>, steps: seq<Step>, i: nat, t: TaskId, u: TaskId, id: SessionId)
    requires IsRun(states, steps) && i < |states|
    ensures var s := states[i];
            && s.finished <= s.active.Keys
            && (t in s.running && u in s.running && s.running[t] == s.running[u] ==> t == u)
            && ((exists k :: k in s.running && s.running[k] == id) <==> id in s.active && id !in s.finished)
            && (i < |steps| && steps[i].Launch? ==> s.poll.id !in s.active)
  {
    RunsKeepInv(states, steps, i);
  }

  /** The poll is about to start a relay for this session. */
  predicate AboutToLaunch(s: State, id: SessionId) {
    s.poll.Launching? && s.poll.id == id
  }

  /** Considering a session: it is launched exactly when its target is known and it has no relay yet; the rest waits. */
  lemma ConsideredIff(s: State, resolved: bool)
    requires Guard(s, Consider(resolved))
    ensures var s' := Next(s, Consider(resolved));
            var id := s.poll.sessions[0];
            && (AboutToLaunch(s', id) <==> resolved && id !in s.active)
            && s'.poll.sessions == s.poll.sessions[1..] && s'.active == s.active && s'.running == s.running && s'.finished == s.finished
  {
  }

  lemma LaunchWaits(s: State, step: Step, id: SessionId)
    requires Guard(s, step) && AboutToLaunch(s, id) && !step.Launch?
    ensures AboutToLaunch(Next(s, step), id)
  {
  }

  /** A polled session that is resolved and has no relay gets one: the next launch starts it and enters it in the table. */
  lemma ResolvedIsRelayed(states: seq<State>, steps: seq<Step>, i: nat, k: nat, id: SessionId)
    requires IsRun(states, steps) && i < k < |steps| && steps[i] == Consider(true) && steps[k].Launch?
    requires states[i].poll.sessions[0] == id && id !in states[i].active
    requires forall q :: i < q < k ==> !steps[q].Launch?
    ensures id in states[k+1].active && states[k+1].active[id] == steps[k].task
    ensures steps[k].task in states[k+1].running && states[k+1].running[steps[k].task] == id
  {
    ConsideredIff(states[i], true);
    StillToLaunch(states, steps, i + 1, k, id);
  }

  lemma {:induction false} StillToLaunch(states: seq<State>, steps: seq<Step>, i: nat, k: nat, id: SessionId)
    requires IsRun(states, steps) && i <= k < |states| && AboutToLaunch(states[i], id)
    requires forall q :: i <= q < k ==> !steps[q].Launch?
    ensures AboutToLaunch(states[k], id)
  {
    if i < k {
      StillToLaunch(states, steps, i, k - 1, id);
      LaunchWaits(states[k-1], steps[k-1], id);
    }
  }

  /** The worker's fields; the clean-up loop removes one finished relay at a time. */
  class RelayTable {
    var active: map<SessionId, TaskId>
    var finished: set<SessionId>

    constructor ()
      ensures active == map[] && finished == {}
    {
      active, finished := map[], {};
    }

    method MarkRelayFinished(id: SessionId)
      modifies this`finished
      ensures finished == old(finished) + {id}
    {
      finished := finished + {id};
    }

    method CleanUpFinished()
      modifies this
      ensures active == old(active) - old(finished) && finished == {}
    {
      var todo := finished;
      while todo != {}
        invariant todo <= finished == old(finished)
        invariant active == old(active) - (finished - todo)
        decreases todo
      {
        var id :| id in todo;
        active := active - {id};
        todo := todo - {id};
      }
      finished := {};
    }
  }
}
