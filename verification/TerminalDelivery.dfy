/** What is sent live, and exactly when the handover from replay to live output has no gap. */
module TerminalDelivery {
  import opened Types
  import opened TerminalHistory
  import opened TerminalReplay
  import opened TerminalSafety
  import opened TerminalPromises
  import opened TerminalRuns

  /** A publisher holds frame `n` for the attachment. */
  ghost predicate InFlight(s: State, a: nat, n: nat)
    requires 1 <= n <= |s.core.published|
  {
    exists p :: p in s.publishers && s.publishers[p] == Sending(FrameAt(s.core.published, n), a)
  }

  ghost predicate SentLive(s: State, a: nat, n: nat)
    requires a in s.attachments && 1 <= n <= |s.core.published|
  {
    FrameAt(s.core.published, n) in LiveIn(s.attachments[a].log)
  }

  /** No publisher has failed to send to this attachment and is about to detach it. */
  ghost predicate NoFailedSend(s: State, a: nat) {
    forall p :: p in s.publishers ==> s.publishers[p] != Clearing(a)
  }

  ghost predicate Delivers(s: State, a: nat)
    requires a in s.attachments && a in s.installed
  {
    forall n :: s.installed[a] < n <= |s.core.published| ==> SentLive(s, a, n) || InFlight(s, a, n)
  }

  /** Everything published since the current attachment was installed is sent or on its way, unless a send failed. */
  ghost predicate Flows(s: State)
    requires Shape(s) && CoreOk(s)
  {
    s.core.attachment.Some? && NoFailedSend(s, s.core.attachment.value) ==> Delivers(s, s.core.attachment.value)
  }

  lemma PublishKeepsFlow(s: State, p: nat, payload: Payload)
    requires Shape(s) && CoreOk(s) && Flows(s) && Guard(s, Publish(p, payload))
    requires var s' := Next(s, Publish(p, payload)); Shape(s') && CoreOk(s')
    ensures Flows(Next(s, Publish(p, payload)))
  {
    var s' := Next(s, Publish(p, payload));
    if s'.core.attachment.Some? && NoFailedSend(s', s'.core.attachment.value) && !s.core.closed {
      var a := s.core.attachment.value;
      forall q | q in s.publishers ensures s.publishers[q] != Clearing(a) {
        assert s'.publishers[q] == s.publishers[q];
      }
      forall n | s'.installed[a] < n <= |s'.core.published| ensures SentLive(s', a, n) || InFlight(s', a, n) {
        if n == |s'.core.published| {
          assert s'.publishers[p] == Sending(FrameAt(s'.core.published, n), a);
        } else {
          StillOnItsWay(s, s', a, n);
        }
      }
    }
  }

  /** A frame sent or held stays so while logs grow and its publisher stays. */
  lemma StillOnItsWay(s: State, s': State, a: nat, n: nat)
    requires a in s.attachments && a in s'.attachments && 1 <= n <= |s.core.published| && s.core.published <= s'.core.published
    requires s'.attachments[a].log == s.attachments[a].log && forall p :: p in s.publishers ==> p in s'.publishers && s'.publishers[p] == s.publishers[p]
    requires SentLive(s, a, n) || InFlight(s, a, n)
    ensures SentLive(s', a, n) || InFlight(s', a, n)
  {
    assert FrameAt(s'.core.published, n) == FrameAt(s.core.published, n);
    if InFlight(s, a, n) {
      var p :| p in s.publishers && s.publishers[p] == Sending(FrameAt(s.core.published, n), a);
      assert p in s'.publishers;
    }
  }

  lemma SendKeepsFlow(s: State, p: nat, ok: bool)
    requires Shape(s) && CoreOk(s) && Flows(s) && Guard(s, PublisherSends(p, ok))
    requires var s' := Next(s, PublisherSends(p, ok)); Shape(s') && CoreOk(s')
    ensures Flows(Next(s, PublisherSends(p, ok)))
  {
    var s' := Next(s, PublisherSends(p, ok));
    var pub := s.publishers[p];
    if s.core.attachment.Some? && NoFailedSend(s', s.core.attachment.value) {
      var a := s.core.attachment.value;
      forall q | q in s.publishers ensures s.publishers[q] != Clearing(a) {
        assert q != p ==> s'.publishers[q] == s.publishers[q];
      }
      assert ok || pub.target != a by {
        assert !ok ==> s'.publishers[p] == Clearing(pub.target);
      }
      Enqueue(s.attachments[pub.target].log, Live(pub.frame, p));
      forall n | s'.installed[a] < n <= |s'.core.published| ensures SentLive(s', a, n) || InFlight(s', a, n) {
        assert SentLive(s, a, n) || InFlight(s, a, n);
        SendMovesFrame(s, s', p, ok, a, n);
      }
    }
  }

  lemma SendMovesFrame(s: State, s': State, p: nat, ok: bool, a: nat, n: nat)
    requires Guard(s, PublisherSends(p, ok)) && s' == Next(s, PublisherSends(p, ok))
    requires a in s.attachments && 1 <= n <= |s.core.published| && (ok || s.publishers[p].target != a)
    requires SentLive(s, a, n) || InFlight(s, a, n)
    ensures a in s'.attachments && s'.core.published == s.core.published && (SentLive(s', a, n) || InFlight(s', a, n))
  {
    var pub := s.publishers[p];
    Enqueue(s.attachments[pub.target].log, Live(pub.frame, p));
    if InFlight(s, a, n) && !SentLive(s, a, n) {
      var q :| q in s.publishers && s.publishers[q] == Sending(FrameAt(s.core.published, n), a);
      if q != p {
        assert q in s'.publishers && s'.publishers[q] == s.publishers[q];
      }
    }
  }

  /** The current attachment, its installation and its publishers are as before, or it is new, or there is none. */
  ghost predicate FlowKept(s: State, s': State) {
    && s'.core.published == s.core.published
    && (s'.core.attachment.Some? ==>
          var a := s'.core.attachment.value;
          && a in s'.installed
          && (s'.installed[a] == |s.core.published|
              || (&& s.core.attachment == Some(a) && a in s.installed && s'.installed[a] == s.installed[a]
                  && s'.publishers == s.publishers)))
  }

  lemma ClearKeepsFlow(s: State, p: nat)
    requires Shape(s) && CoreOk(s) && Guard(s, PublisherClears(p))
    requires var s' := Next(s, PublisherClears(p)); Shape(s') && CoreOk(s')
    requires Flows(s)
    ensures Flows(Next(s, PublisherClears(p)))
  {
    var s' := Next(s, PublisherClears(p));
    if s'.core.attachment.Some? && NoFailedSend(s', s'.core.attachment.value) {
      var a := s'.core.attachment.value;
      assert s.core.attachment == Some(a) && s.publishers[p].target != a;
      forall q | q in s.publishers ensures s.publishers[q] != Clearing(a) {
        assert q != p ==> s'.publishers[q] == s.publishers[q];
      }
      forall n | s'.installed[a] < n <= |s'.core.published| ensures SentLive(s', a, n) || InFlight(s', a, n) {
        if InFlight(s, a, n) {
          var q :| q in s.publishers && s.publishers[q] == Sending(FrameAt(s.core.published, n), a);
          assert q in s'.publishers && s'.publishers[q] == s.publishers[q];
        } else {
          assert SentLive(s, a, n);
        }
      }
    }
  }

  lemma AttacherKeepsSetting(s: State, step: Step)
    requires Guard(s, step) && Shape(s) && CoreOk(s) && AttacherOk(s) && ByAttacher(step)
    ensures FlowKept(s, Next(s, step))
  {
  }

  lemma OthersKeepSetting(s: State, step: Step)
    requires Guard(s, step) && CoreOk(s) && !ByAttacher(step)
    requires !step.Publish? && !step.PublisherSends? && !step.PublisherClears?
    ensures FlowKept(s, Next(s, step))
  {
  }

  lemma OtherStepKeepsSetting(s: State, step: Step)
    requires Guard(s, step) && Shape(s) && CoreOk(s) && AttacherOk(s)
    requires !step.Publish? && !step.PublisherSends? && !step.PublisherClears?
    ensures FlowKept(s, Next(s, step))
  {
    if ByAttacher(step) {
      AttacherKeepsSetting(s, step);
    } else {
      OthersKeepSetting(s, step);
    }
  }

  lemma OtherStepKeepsFlow(s: State, step: Step)
    requires Shape(s) && CoreOk(s) && AttacherOk(s) && Flows(s) && Guard(s, step)
    requires !step.Publish? && !step.PublisherSends? && !step.PublisherClears?
    requires Shape(Next(s, step)) && CoreOk(Next(s, step))
    ensures Flows(Next(s, step))
  {
    var s' := Next(s, step);
    OtherStepKeepsSetting(s, step);
    if s'.core.attachment.Some? && NoFailedSend(s', s'.core.attachment.value) {
      var a := s'.core.attachment.value;
      OtherStepAddsNothingLive(s, step, a);
      forall n | s'.installed[a] < n <= |s'.core.published| ensures SentLive(s', a, n) || InFlight(s', a, n) {
        assert SentLive(s, a, n) || InFlight(s, a, n);
      }
    }
  }

  lemma StepKeepsFlow(s: State, step: Step)
    requires Inv(s) && Flows(s) && Guard(s, step) && Shape(Next(s, step)) && CoreOk(Next(s, step))
    ensures Flows(Next(s, step))
  {
    match step
    case Publish(p, payload) => PublishKeepsFlow(s, p, payload);
    case PublisherSends(p, ok) => SendKeepsFlow(s, p, ok);
    case PublisherClears(p) => ClearKeepsFlow(s, p);
    case _ => OtherStepKeepsFlow(s, step);
  }

  lemma {:induction false} RunsFlow(states: seq<State>, steps: seq<Step>, i: nat)
    requires IsRun(states, steps) && i < |states|
    ensures Inv(states[i]) && Flows(states[i])
  {
    RunsKeepInv(states, steps, i);
    if i > 0 {
      RunsFlow(states, steps, i - 1);
      StepKeepsFlow(states[i-1], steps[i-1]);
    }
  }

  /**
    Live delivery. In every reachable state every frame published since the current attachment was installed has been
    sent to it or is in the hands of a publisher that will, unless a send to it has failed.
  */
  lemma LiveIsDelivered(states: seq<State>, steps: seq<Step>, i: nat, a: nat, n: nat)
    requires IsRun(states, steps) && i < |states|
    requires states[i].core.attachment == Some(a) && NoFailedSend(states[i], a)
    ensures a in states[i].attachments && a in states[i].installed
    ensures states[i].installed[a] < n <= |states[i].core.published| ==> SentLive(states[i], a, n) || InFlight(states[i], a, n)
  {
    RunsFlow(states, steps, i);
  }

  /** Frame `n` was sent to the attachment, replayed or live. */
  ghost predicate WasSent(s: State, a: nat, n: nat)
    requires a in s.attachments
  {
    exists k :: 0 <= k < |s.attachments[a].log| && HasFrame(s.attachments[a].log[k]) && s.attachments[a].log[k].frame.number == n
  }

  /** Every frame since the last snapshot was sent, or is on its way. */
  ghost predicate GapFree(s: State, a: nat)
    requires a in s.attachments && a in s.snaps
  {
    forall n :: Last(s.snaps[a]) < n <= |s.core.published| ==> WasSent(s, a, n) || InFlight(s, a, n)
  }

  lemma {:induction false} LiveEntry(log: seq<Entry>, f: Frame) returns (k: nat)
    requires f in LiveIn(log)
    ensures k < |log| && log[k].Live? && log[k].frame == f
  {
    var n := |log| - 1;
    if log[n].Live? && log[n].frame == f {
      k := n;
    } else {
      k := LiveEntry(log[..n], f);
    }
  }

  /** No frame is sent live that was published before the installation, and none replayed after the last snapshot. */
  lemma SkippedNumbers(s: State, a: nat, n: nat)
    requires Inv(s) && a in s.attachments && a in s.installed
    requires Last(s.snaps[a]) < n <= s.installed[a] <= |s.core.published|
    ensures !WasSent(s, a, n) && !InFlight(s, a, n)
  {
    StreamFacts(s, a);
    var log := s.attachments[a].log;
    forall k | 0 <= k < |log| && HasFrame(log[k]) ensures log[k].frame.number != n {
      FrameInLists(log, k);
    }
    forall p | p in s.publishers ensures s.publishers[p] != Sending(FrameAt(s.core.published, n), a) {
      assert PublisherOk(s, s.publishers[p]);
    }
  }

  /**
    The handover. A frame published between the last snapshot and the installation is retained but is never sent to
    the attachment and is not on its way to it.
  */
  lemma HandoverSkips(states: seq<State>, steps: seq<Step>, i: nat, a: nat, n: nat)
    requires IsRun(states, steps) && i < |states| && a in states[i].attachments && a in states[i].installed
    ensures a in states[i].snaps && Last(states[i].snaps[a]) <= states[i].installed[a] <= |states[i].core.published|
    ensures Last(states[i].snaps[a]) < n <= states[i].installed[a] ==> !WasSent(states[i], a, n) && !InFlight(states[i], a, n)
  {
    RunsKeepInv(states, steps, i);
    assert Sound(states[i], a);
    if Last(states[i].snaps[a]) < n <= states[i].installed[a] {
      SkippedNumbers(states[i], a, n);
    }
  }

  /**
    Exactly when the handover has no gap: for the current attachment, with no failed send, every frame since its last
    snapshot is sent or on its way if and only if nothing was published between that snapshot and the installation.
  */
  lemma GapFreeIff(states: seq<State>, steps: seq<Step>, i: nat, a: nat)
    requires IsRun(states, steps) && i < |states|
    requires states[i].core.attachment == Some(a) && NoFailedSend(states[i], a)
    ensures a in states[i].attachments && a in states[i].snaps && a in states[i].installed
    ensures GapFree(states[i], a) <==> Last(states[i].snaps[a]) == states[i].installed[a]
  {
    RunsFlow(states, steps, i);
    var s := states[i];
    assert Sound(s, a);
    if Last(s.snaps[a]) == s.installed[a] {
      forall n | Last(s.snaps[a]) < n <= |s.core.published| ensures WasSent(s, a, n) || InFlight(s, a, n) {
        if SentLive(s, a, n) {
          var k := LiveEntry(s.attachments[a].log, FrameAt(s.core.published, n));
        }
      }
    } else {
      SkippedNumbers(s, a, s.installed[a]);
    }
  }

  /** It happens: one frame published after the empty snapshot and before the installation. */
  lemma HandoverGapHappens() returns (states: seq<State>, steps: seq<Step>)
    ensures IsRun(states, steps)
    ensures var s := Final(states);
            && s.core.attachment == Some(0) && NoFailedSend(s, 0) && 0 in s.installed && 0 in s.snaps && 0 in s.attachments
            && Last(s.snaps[0]) < s.installed[0] == |s.core.published| && !GapFree(s, 0)
  {
    states, steps := LookedAtNothing();
    states, steps := Then(states, steps, Publish(0, []), Next(Final(states), Publish(0, [])));
    states, steps := Then(states, steps, AttachInstall, Next(Final(states), AttachInstall));
    GapFreeIff(states, steps, |states| - 1, 0);
  }
}
