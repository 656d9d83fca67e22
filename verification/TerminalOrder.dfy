/** The order of live output: what one publisher sends to an attachment arrives in the order it was published. */
module TerminalOrder {
  import opened Types
  import opened TerminalHistory
  import opened TerminalReplay
  import opened TerminalSafety
  import opened TerminalPromises

  /** Entry `e` was sent live by publisher `p`. */
  predicate SentBy(e: Entry, p: nat) {
    e.Live? && e.sender == p
  }

  ghost predicate InOrder(log: seq<Entry>, p: nat) {
    forall j, k :: 0 <= j < k < |log| && SentBy(log[j], p) && SentBy(log[k], p) ==> log[j].frame.number < log[k].frame.number
  }

  /** Everything the publisher ever sent is older than `n`. */
  ghost predicate SentBefore(log: seq<Entry>, p: nat, n: nat) {
    forall j :: 0 <= j < |log| && SentBy(log[j], p) ==> log[j].frame.number < n
  }

  /** A publisher that holds a frame has sent only older ones. */
  ghost predicate OrderOk(s: State, a: nat, p: nat)
    requires a in s.attachments
  {
    && InOrder(s.attachments[a].log, p)
    && SentBefore(s.attachments[a].log, p, |s.core.published| + 1)
    && (p in s.publishers && s.publishers[p].Sending? ==> SentBefore(s.attachments[a].log, p, s.publishers[p].frame.number))
  }

  lemma AppendKeepsOrder(log: seq<Entry>, e: Entry, p: nat, n: nat)
    requires InOrder(log, p) && SentBefore(log, p, n)
    requires SentBy(e, p) ==> SentBefore(log, p, e.frame.number) && e.frame.number < n
    ensures InOrder(log + [e], p) && SentBefore(log + [e], p, n)
  {
  }

  lemma SilentAppend(log: seq<Entry>, e: Entry, p: nat, n: nat)
    requires !SentBy(e, p)
    ensures InOrder(log, p) ==> InOrder(log + [e], p)
    ensures SentBefore(log, p, n) ==> SentBefore(log + [e], p, n)
  {
  }

  lemma PublishKeepsOrder(s: State, q: nat, payload: Payload, a: nat, p: nat)
    requires Guard(s, Publish(q, payload)) && a in s.attachments && OrderOk(s, a, p)
    ensures var s' := Next(s, Publish(q, payload)); a in s'.attachments && OrderOk(s', a, p)
  {
  }

  lemma SendKeepsOrder(s: State, q: nat, ok: bool, a: nat, p: nat)
    requires Guard(s, PublisherSends(q, ok)) && a in s.attachments && OrderOk(s, a, p)
    requires PublisherOk(s, s.publishers[q])
    ensures var s' := Next(s, PublisherSends(q, ok)); a in s'.attachments && OrderOk(s', a, p)
  {
    var s' := Next(s, PublisherSends(q, ok));
    var log, e := s.attachments[a].log, Live(s.publishers[q].frame, q);
    if ok && s.publishers[q].target == a {
      assert s'.attachments[a].log == log + [e];
      AppendKeepsOrder(log, e, p, |s.core.published| + 1);
      if p != q && p in s.publishers && s.publishers[p].Sending? {
        SilentAppend(log, e, p, s.publishers[p].frame.number);
      }
    }
  }

  /** A step that neither publishes nor sends live adds at most one entry of another kind. */
  ghost predicate AddsSilently(log: seq<Entry>, log': seq<Entry>) {
    log' == log || exists e :: log' == log + [e] && !e.Live?
  }

  lemma AttacherAddsSilently(s: State, step: Step, a: nat)
    requires Shape(s) && AttacherOk(s) && Guard(s, step) && ByAttacher(step) && a in s.attachments
    ensures a in Next(s, step).attachments && AddsSilently(s.attachments[a].log, Next(s, step).attachments[a].log)
  {
    if step.AttachReplay? {
      assert !Replayed(s.attacher.frames[0]).Live?;
    }
    assert !Control.Live?;
  }

  lemma OthersAddSilently(s: State, step: Step, a: nat)
    requires Guard(s, step) && !ByAttacher(step) && !step.PublisherSends? && a in s.attachments
    ensures a in Next(s, step).attachments && AddsSilently(s.attachments[a].log, Next(s, step).attachments[a].log)
  {
    assert !Control.Live?;
  }

  lemma SilentStepKeepsOrder(s: State, step: Step, a: nat, p: nat)
    requires Shape(s) && AttacherOk(s) && Guard(s, step) && !step.Publish? && !step.PublisherSends?
    requires a in s.attachments && OrderOk(s, a, p)
    ensures a in Next(s, step).attachments && OrderOk(Next(s, step), a, p)
  {
    var s' := Next(s, step);
    OtherStepKeepsTargets(s, step);
    if ByAttacher(step) {
      AttacherAddsSilently(s, step, a);
    } else {
      OthersAddSilently(s, step, a);
    }
    var log, log' := s.attachments[a].log, s'.attachments[a].log;
    if log' != log {
      var e :| log' == log + [e] && !e.Live?;
      SilentAppend(log, e, p, |s.core.published| + 1);
      if p in s.publishers && s.publishers[p].Sending? {
        SilentAppend(log, e, p, s.publishers[p].frame.number);
      }
    }
  }

  lemma NewLogIsEmpty(s: State, step: Step, a: nat)
    requires Guard(s, step) && a in Next(s, step).attachments && a !in s.attachments
    ensures Next(s, step).attachments[a].log == []
  {
  }

  lemma StepKeepsOrder(s: State, step: Step, a: nat, p: nat)
    requires Inv(s) && Guard(s, step) && a in Next(s, step).attachments && (a in s.attachments ==> OrderOk(s, a, p))
    ensures OrderOk(Next(s, step), a, p)
  {
    if a !in s.attachments {
      NewLogIsEmpty(s, step, a);
    } else if step.Publish? {
      PublishKeepsOrder(s, step.p, step.payload, a, p);
    } else if step.PublisherSends? {
      SendKeepsOrder(s, step.p, step.ok, a, p);
    } else {
      SilentStepKeepsOrder(s, step, a, p);
    }
  }

  lemma {:induction false} RunsKeepOrder(states: seq<State>, steps: seq<Step>, i: nat, a: nat, p: nat)
    requires IsRun(states, steps) && i < |states| && a in states[i].attachments
    ensures OrderOk(states[i], a, p)
  {
    if i > 0 {
      if a in states[i-1].attachments {
        RunsKeepOrder(states, steps, i - 1, a, p);
      }
      RunsKeepInv(states, steps, i - 1);
      StepKeepsOrder(states[i-1], steps[i-1], a, p);
    }
  }

  /** Under every interleaving each attachment is sent the live frames of one publisher in increasing order. */
  lemma OneStreamInOrder(states: seq<State>, steps: seq<Step>, i: nat, a: nat, p: nat, j: nat, k: nat)
    requires IsRun(states, steps) && i < |states| && a in states[i].attachments
    requires var log := states[i].attachments[a].log; j < k < |log| && SentBy(log[j], p) && SentBy(log[k], p)
    ensures var log := states[i].attachments[a].log; log[j].frame.number < log[k].frame.number
  {
    RunsKeepOrder(states, steps, i, a, p);
  }
}
