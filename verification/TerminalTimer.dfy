/** The idle timer: exactly when it runs, and the two surprises that follow. */
module TerminalTimer {
  import opened Types
  import opened TerminalHistory
  import opened TerminalReplay
  import opened TerminalRuns

  /** This step detaches the current attachment. */
  predicate Detaches(s: State, step: Step)
    requires Guard(s, step)
  {
    match step
    case Detach(a) => s.core.attachment == Some(a)
    case PublisherClears(p) => s.core.attachment == Some(s.publishers[p].target)
    case _ => false
  }

  /** Step `q` detached the session, and no attach has stopped the timer since. */
  ghost predicate DetachCounts(states: seq<State>, steps: seq<Step>, q: nat, m: nat)
    requires IsRun(states, steps) && m < |states|
  {
    q < m && Detaches(states[q], steps[q]) && forall k :: q < k < m ==> !steps[k].AttachStopTimer?
  }

  lemma TimerStep(s: State, step: Step)
    requires Guard(s, step)
    ensures Next(s, step).core.timer ==
      if step.AttachStopTimer? || step.CloseSession? then false else s.core.timer || (Detaches(s, step) && !s.core.closed)
    ensures Next(s, step).core.closed == (s.core.closed || step.CloseSession?)
  {
  }

  /** The session was detached after the last time an attach stopped the timer. */
  ghost predicate DetachedSinceStop(states: seq<State>, steps: seq<Step>, m: nat)
    requires IsRun(states, steps) && m < |states|
  {
    exists q: nat :: DetachCounts(states, steps, q, m)
  }

  lemma CountsStep(states: seq<State>, steps: seq<Step>, m: nat)
    requires IsRun(states, steps) && m < |steps|
    ensures DetachedSinceStop(states, steps, m + 1) <==>
      !steps[m].AttachStopTimer? && (Detaches(states[m], steps[m]) || DetachedSinceStop(states, steps, m))
  {
    var n := m + 1;
    if DetachedSinceStop(states, steps, n) {
      var q: nat :| DetachCounts(states, steps, q, n);
      assert q < m ==> DetachCounts(states, steps, q, m);
    }
    if !steps[m].AttachStopTimer? {
      if Detaches(states[m], steps[m]) {
        assert DetachCounts(states, steps, m, n);
      } else if DetachedSinceStop(states, steps, m) {
        var q: nat :| DetachCounts(states, steps, q, m);
        assert DetachCounts(states, steps, q, n);
      }
    }
  }

  /**
    In every reachable state the idle timer runs exactly when the session is open and was detached after the last
    time an attach stopped the timer. Whether it is attached now does not enter into it.
  */
  lemma {:induction false} TimerRunsIff(states: seq<State>, steps: seq<Step>, m: nat)
    requires IsRun(states, steps) && m < |states|
    ensures states[m].core.timer <==> !states[m].core.closed && DetachedSinceStop(states, steps, m)
  {
    if m > 0 {
      TimerRunsIff(states, steps, m - 1);
      CountsStep(states, steps, m - 1);
      TimerStep(states[m-1], steps[m-1]);
      assert states[m] == Next(states[m-1], steps[m-1]);
    }
  }

  // Two runs.

  lemma OneStep(states: seq<State>, steps: seq<Step>, step: Step) returns (more: seq<State>, moves: seq<Step>)
    requires IsRun(states, steps) && Guard(Final(states), step)
    ensures IsRun(more, moves) && Final(more) == Next(Final(states), step)
  {
    more, moves := Then(states, steps, step, Next(Final(states), step));
  }

  /** A session with one attachment that saw nothing published, and a second attach at some point. */
  function Reattaching(core: Core, attacher: Attacher): State {
    State(core, map[], attacher, map[0 := Attachment([Control], 0, false)], map[0 := 0], {}, map[0 := [0]], false)
  }

  /** The second attach has just stopped the timer. */
  lemma SecondAttachBegins() returns (states: seq<State>, steps: seq<Step>)
    ensures IsRun(states, steps) && Final(states) == Reattaching(Core([], false, Some(0), false), TimerOff)
  {
    var core := Core([], false, Some(0), false);
    states, steps := LookedAtNothing();
    states, steps := Then(states, steps, AttachInstall, Reattaching(core, Free));
    states, steps := Then(states, steps, AttachEnter, Reattaching(core, Entered));
    states, steps := Then(states, steps, AttachCheckClosed, Reattaching(core, Admitted));
    states, steps := Then(states, steps, AttachStopTimer, Reattaching(core, TimerOff));
  }

  /** An attached session whose idle timer runs: the old attachment went away after the new attach stopped the timer. */
  lemma AttachedWhileTimed() returns (states: seq<State>, steps: seq<Step>)
    ensures IsRun(states, steps)
    ensures Final(states).core.attachment == Some(1) && Final(states).core.timer && !Final(states).core.closed
  {
    states, steps := SecondAttachBegins();
    states, steps := Then(states, steps, Detach(0), Reattaching(Core([], false, None, true), TimerOff));
    states, steps := OneStep(states, steps, AttachCreate(1));
    states, steps := OneStep(states, steps, AttachGreet(true));
    states, steps := OneStep(states, steps, AttachSnapshot);
    states, steps := OneStep(states, steps, AttachInstall);
  }

  lemma SendLeads(s: State)
    requires s == Reattaching(Core([[]], false, Some(0), false), TimerOff).(publishers := map[0 := Sending(Frame(1, []), 0)])
    ensures Guard(s, PublisherSends(0, true))
    ensures Next(s, PublisherSends(0, true)) ==
      s.(publishers := map[], attachments := map[0 := Attachment([Control, Live(Frame(1, []), 0)], 0, false)])
  {
    assert [Control] + [Live(Frame(1, []), 0)] == [Control, Live(Frame(1, []), 0)];
    assert s.publishers - {0} == map[];
    assert s.attachments[0 := Attachment([Control, Live(Frame(1, []), 0)], 0, false)] == map[0 := Attachment([Control, Live(Frame(1, []), 0)], 0, false)];
  }

  /** The second attach has replaced the first and is about to look at a history of one frame. */
  lemma SecondAttachReplaces() returns (states: seq<State>, steps: seq<Step>)
    ensures IsRun(states, steps)
    ensures Final(states) ==
      State(Core([[]], false, None, false), map[], Greeting(1), map[0 := Attachment([Control, Live(Frame(1, []), 0)], 0, true), 1 := Attachment([], 0, false)],
            map[0 := 0], {}, map[0 := [0], 1 := []], false)
  {
    var core := Core([[]], false, Some(0), false);
    states, steps := SecondAttachBegins();
    states, steps := OneStep(states, steps, Publish(0, []));
    assert Final(states).core == core;
    SendLeads(Final(states));
    states, steps := OneStep(states, steps, PublisherSends(0, true));
    var sent := map[0 := Attachment([Control, Live(Frame(1, []), 0)], 0, false)];
    assert Final(states) == State(core, map[], TimerOff, sent, map[0 := 0], {}, map[0 := [0]], false);
    states, steps := OneStep(states, steps, AttachCreate(1));
    states, steps := OneStep(states, steps, AttachDropOld);
  }

  /**
    An open session that nobody is attached to or attaching to, without a timer: the second attach replaced the first,
    but its ready message could not be written and so its replay failed.
  */
  lemma AbandonedWithoutTimer() returns (states: seq<State>, steps: seq<Step>)
    ensures IsRun(states, steps)
    ensures var s := Final(states);
            && s.core.attachment.None? && s.attacher.Free? && s.publishers == map[] && 0 in s.installed
            && !s.core.timer && !s.core.closed && !s.cancelled
  {
    states, steps := SecondAttachReplaces();
    states, steps := OneStep(states, steps, AttachGreet(true));
    states, steps := OneStep(states, steps, WriterTakes(1));
    states, steps := OneStep(states, steps, AttachmentCloses(1));
    states, steps := OneStep(states, steps, AttachSnapshot);
    states, steps := OneStep(states, steps, AttachReplay(false));
  }
}
