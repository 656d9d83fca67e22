/** The queue of an attachment is shorter than the history: exactly when an attach whose writer is idle succeeds. */
module TerminalQueue {
  import opened Types
  import opened TerminalHistory
  import opened TerminalReplay
  import opened TerminalSafety
  import opened TerminalPromises
  import opened TerminalRuns

  // What is in a queue: the ready message, then the replay, and only after the installation anything else.

  datatype Progress = BeforeReady | AfterReady | InPlace | GivenUp

  function ProgressOf(s: State, a: nat): Progress {
    if a in s.installed then InPlace
    else if !Attaching(s, a) then GivenUp
    else if s.attacher.Replacing? || s.attacher.Greeting? then BeforeReady
    else AfterReady
  }

  ghost predicate LogOk(log: seq<Entry>, progress: Progress) {
    match progress
    case BeforeReady => log == []
    case AfterReady => log != [] && log[0].Control? && |log| == |ReplayedIn(log)| + 1
    case InPlace => log != [] && log[0].Control?
    case GivenUp => log != [] ==> log[0].Control? && |log| == |ReplayedIn(log)| + 1
  }

  ghost predicate LogsOk(s: State) {
    forall a :: a in s.attachments ==> LogOk(s.attachments[a].log, ProgressOf(s, a))
  }

  lemma AppendKeepsLog(log: seq<Entry>, e: Entry, progress: Progress)
    requires LogOk(log, progress)
    ensures progress == BeforeReady && e.Control? ==> LogOk(log + [e], AfterReady)
    ensures progress == AfterReady && e.Replayed? ==> LogOk(log + [e], AfterReady)
    ensures progress == InPlace ==> LogOk(log + [e], InPlace)
  {
    Enqueue(log, e);
    if log == [] {
      assert log + [e] == [e] && [e][..0] == [];
    }
  }

  predicate Advances(before: Progress, after: Progress) {
    after == before || (after == GivenUp && before != InPlace) || (after == InPlace && before == AfterReady)
  }

  lemma AdvancingKeepsLog(log: seq<Entry>, before: Progress, after: Progress)
    requires LogOk(log, before) && Advances(before, after)
    ensures LogOk(log, after)
  {
  }

  lemma OthersAdvance(s: State, step: Step, a: nat)
    requires Guard(s, step) && !ByAttacher(step)
    ensures ProgressOf(Next(s, step), a) == ProgressOf(s, a)
  {
  }

  lemma AttacherAdvances(s: State, step: Step, a: nat)
    requires Shape(s) && AttacherOk(s) && Guard(s, step) && ByAttacher(step) && a in s.attachments
    requires !Touches(s, step, a) || step.AttachSnapshot? || step.AttachInstall?
    ensures Advances(ProgressOf(s, a), ProgressOf(Next(s, step), a))
  {
  }

  lemma LogUntouched(s: State, step: Step, a: nat)
    requires Guard(s, step) && a in s.attachments
    requires !Touches(s, step, a) || step.AttachSnapshot? || step.AttachInstall?
    ensures a in Next(s, step).attachments && Next(s, step).attachments[a].log == s.attachments[a].log
  {
  }

  lemma UntouchedAdvances(s: State, step: Step, a: nat)
    requires Shape(s) && AttacherOk(s) && Guard(s, step) && a in s.attachments
    requires !Touches(s, step, a) || step.AttachSnapshot? || step.AttachInstall?
    ensures a in Next(s, step).attachments && Next(s, step).attachments[a].log == s.attachments[a].log
    ensures Advances(ProgressOf(s, a), ProgressOf(Next(s, step), a))
  {
    LogUntouched(s, step, a);
    if ByAttacher(step) {
      AttacherAdvances(s, step, a);
    } else {
      OthersAdvance(s, step, a);
    }
  }

  lemma SendersKeepLog(s: State, step: Step, a: nat)
    requires Shape(s) && PublishersOk(s) && CoreOk(s) && Guard(s, step) && Touches(s, step, a) && !ByAttacher(step)
    requires a in s.attachments ==> LogOk(s.attachments[a].log, ProgressOf(s, a))
    ensures a in Next(s, step).attachments && LogOk(Next(s, step).attachments[a].log, ProgressOf(Next(s, step), a))
  {
    OthersAdvance(s, step, a);
    match step
    case PublisherSends(p, _) =>
      assert PublisherOk(s, s.publishers[p]);
      AppendKeepsLog(s.attachments[a].log, Live(s.publishers[p].frame, p), InPlace);
    case NotifyClose(_, _) => AppendKeepsLog(s.attachments[a].log, Control, InPlace);
  }

  lemma GreetKeepsLog(s: State, a: nat)
    requires Guard(s, AttachGreet(true)) && s.attacher == Greeting(a) && a !in s.installed
    requires LogOk(s.attachments[a].log, ProgressOf(s, a))
    ensures LogOk(Next(s, AttachGreet(true)).attachments[a].log, ProgressOf(Next(s, AttachGreet(true)), a))
  {
    var s' := Next(s, AttachGreet(true));
    assert ProgressOf(s, a) == BeforeReady && ProgressOf(s', a) == AfterReady;
    assert s'.attachments[a].log == s.attachments[a].log + [Control];
    AppendKeepsLog(s.attachments[a].log, Control, BeforeReady);
  }

  lemma ReplayKeepsLog(s: State, a: nat)
    requires Guard(s, AttachReplay(true)) && s.attacher.Replaying? && s.attacher.a == a && a !in s.installed
    requires LogOk(s.attachments[a].log, ProgressOf(s, a))
    ensures LogOk(Next(s, AttachReplay(true)).attachments[a].log, ProgressOf(Next(s, AttachReplay(true)), a))
  {
    var s' := Next(s, AttachReplay(true));
    assert ProgressOf(s, a) == AfterReady && ProgressOf(s', a) == AfterReady;
    assert s'.attachments[a].log == s.attachments[a].log + [Replayed(s.attacher.frames[0])];
    AppendKeepsLog(s.attachments[a].log, Replayed(s.attacher.frames[0]), AfterReady);
  }

  lemma AttacherKeepsLog(s: State, step: Step, a: nat)
    requires Shape(s) && AttacherOk(s) && Guard(s, step) && Touches(s, step, a) && ByAttacher(step)
    requires !step.AttachSnapshot? && !step.AttachInstall?
    requires a in s.attachments ==> LogOk(s.attachments[a].log, ProgressOf(s, a))
    ensures a in Next(s, step).attachments && LogOk(Next(s, step).attachments[a].log, ProgressOf(Next(s, step), a))
  {
    if step.AttachGreet? {
      GreetKeepsLog(s, a);
    } else if step.AttachReplay? {
      ReplayKeepsLog(s, a);
    }
  }

  lemma StepKeepsLogs(s: State, step: Step)
    requires Inv(s) && LogsOk(s) && Guard(s, step)
    ensures LogsOk(Next(s, step))
  {
    var s' := Next(s, step);
    forall a | a in s'.attachments ensures LogOk(s'.attachments[a].log, ProgressOf(s', a)) {
      StepKeepsLog(s, step, a);
    }
  }

  lemma StepKeepsLog(s: State, step: Step, a: nat)
    requires Shape(s) && AttacherOk(s) && PublishersOk(s) && CoreOk(s) && Guard(s, step) && a in Next(s, step).attachments
    requires a in s.attachments ==> LogOk(s.attachments[a].log, ProgressOf(s, a))
    ensures LogOk(Next(s, step).attachments[a].log, ProgressOf(Next(s, step), a))
  {
    if Touches(s, step, a) && !step.AttachSnapshot? && !step.AttachInstall? {
      if ByAttacher(step) {
        AttacherKeepsLog(s, step, a);
      } else {
        SendersKeepLog(s, step, a);
      }
    } else {
      StillThere(s, step, a);
      UntouchedAdvances(s, step, a);
      AdvancingKeepsLog(s.attachments[a].log, ProgressOf(s, a), ProgressOf(Next(s, step), a));
    }
  }

  lemma StillThere(s: State, step: Step, a: nat)
    requires Guard(s, step) && a in Next(s, step).attachments && step != AttachCreate(a)
    ensures a in s.attachments
  {
  }

  // Giving up.

  /** An attach that gave up although its queue was never read and never closed had a queue's worth to replay. */
  ghost predicate GaveUpOk(s: State, a: nat)
    requires Shape(s) && a in s.attachments && SnapsWithin(s.core.published, s.snaps[a])
  {
    ProgressOf(s, a) == GivenUp && s.attachments[a].taken == 0 && !s.attachments[a].done ==>
      |ReplayOf(s.core.published, s.snaps[a])| >= QUEUE_SIZE
  }

  /** The step in which an attach gives up. */
  lemma GivesUp(s: State, step: Step, a: nat)
    requires Guard(s, step) && ProgressOf(s, a) != GivenUp && ProgressOf(Next(s, step), a) == GivenUp
    ensures s.attacher.Greeting? || s.attacher.Replaying?
    ensures s.attacher.a == a && step == if s.attacher.Greeting? then AttachGreet(false) else AttachReplay(false)
  {
    if !ByAttacher(step) {
      OthersAdvance(s, step, a);
    }
  }

  /** An idle, open attachment gives up only with a full queue and frames left to send. */
  lemma GivingUpNeedsFullQueue(s: State, step: Step, a: nat)
    requires Shape(s) && AttacherOk(s) && Guard(s, step) && a in s.attachments && Sound(s, a)
    requires LogOk(s.attachments[a].log, ProgressOf(s, a)) && s.attachments[a].taken == 0 && !s.attachments[a].done
    requires ProgressOf(s, a) != GivenUp && ProgressOf(Next(s, step), a) == GivenUp
    ensures |ReplayOf(s.core.published, s.snaps[a])| >= QUEUE_SIZE
  {
    GivesUp(s, step, a);
    if s.attacher.Replaying? {
      assert StageOf(s, a) == Looping(s.attacher.frames);
    }
  }

  ghost predicate Aged(s: State, s': State, a: nat) {
    && a in s.attachments && a in s'.attachments
    && s'.attachments[a].taken >= s.attachments[a].taken && (s.attachments[a].done ==> s'.attachments[a].done)
  }

  lemma AttacherAgesQueue(s: State, step: Step, a: nat)
    requires Guard(s, step) && a in s.attachments && ByAttacher(step) && step != AttachCreate(a)
    ensures Aged(s, Next(s, step), a) && Next(s, step).core.published == s.core.published
  {
  }

  lemma OthersAgeQueue(s: State, step: Step, a: nat)
    requires Guard(s, step) && a in s.attachments && !ByAttacher(step)
    ensures Aged(s, Next(s, step), a)
  {
  }

  lemma PublishedGrows(s: State, step: Step)
    requires Guard(s, step)
    ensures s.core.published <= Next(s, step).core.published
  {
  }

  /** A queue is only ever read on and closed. */
  lemma QueueAges(s: State, step: Step, a: nat)
    requires Guard(s, step) && a in s.attachments && step != AttachCreate(a)
    ensures Aged(s, Next(s, step), a) && s.core.published <= Next(s, step).core.published
  {
    PublishedGrows(s, step);
    if ByAttacher(step) {
      AttacherAgesQueue(s, step, a);
    } else {
      OthersAgeQueue(s, step, a);
    }
  }

  lemma OnlySnapshotsAddSnaps(s: State, step: Step, a: nat)
    requires Guard(s, step) && a in s.snaps && !step.AttachSnapshot? && !step.AttachCreate?
    ensures Next(s, step).snaps == s.snaps
  {
  }

  /** An attach that is over keeps its snapshots. */
  lemma OverKeepsSnaps(s: State, step: Step, a: nat)
    requires Shape(s) && AttacherOk(s) && Guard(s, step) && a in s.attachments && ProgressOf(Next(s, step), a) == GivenUp
    ensures a in Next(s, step).snaps && Next(s, step).snaps[a] == s.snaps[a]
  {
    if !step.AttachSnapshot? && !step.AttachCreate? {
      OnlySnapshotsAddSnaps(s, step, a);
    } else if step.AttachSnapshot? {
      assert s.attacher.a == a ==> Attaching(Next(s, step), a) && a !in s.installed;
    }
  }

  lemma StepKeepsGaveUp(s: State, step: Step, a: nat)
    requires Shape(s) && AttacherOk(s) && Guard(s, step) && Shape(Next(s, step))
    requires a in Next(s, step).attachments && SnapsWithin(Next(s, step).core.published, Next(s, step).snaps[a])
    requires a in s.attachments ==> Sound(s, a) && GaveUpOk(s, a) && LogOk(s.attachments[a].log, ProgressOf(s, a))
    ensures GaveUpOk(Next(s, step), a)
  {
    var s' := Next(s, step);
    if ProgressOf(s', a) == GivenUp && s'.attachments[a].taken == 0 && !s'.attachments[a].done {
      KnownWhenOver(s, step, a);
      QueueAges(s, step, a);
      OverKeepsSnaps(s, step, a);
      if ProgressOf(s, a) != GivenUp {
        GivingUpNeedsFullQueue(s, step, a);
      }
      ReplayOfStable(s.core.published, s'.core.published, s.snaps[a]);
    }
  }

  lemma KnownWhenOver(s: State, step: Step, a: nat)
    requires Guard(s, step) && a in Next(s, step).attachments && ProgressOf(Next(s, step), a) == GivenUp
    ensures a in s.attachments
  {
  }

  ghost predicate QueuesOk(s: State) {
    Inv(s) && LogsOk(s) && forall a :: a in s.attachments ==> Sound(s, a) && GaveUpOk(s, a)
  }

  lemma StepKeepsQueues(s: State, step: Step)
    requires QueuesOk(s) && Guard(s, step)
    ensures QueuesOk(Next(s, step))
  {
    var s' := Next(s, step);
    StepKeepsInv(s, step);
    StepKeepsLogs(s, step);
    forall a | a in s'.attachments ensures Sound(s', a) && GaveUpOk(s', a) {
      assert Sound(s', a);
      StepKeepsGaveUp(s, step, a);
    }
  }

  lemma {:induction false} RunsKeepQueues(states: seq<State>, steps: seq<Step>, i: nat)
    requires IsRun(states, steps) && i < |states|
    ensures QueuesOk(states[i])
  {
    if i > 0 {
      RunsKeepQueues(states, steps, i - 1);
      StepKeepsQueues(states[i-1], steps[i-1]);
    }
  }

  // What follows.

  lemma {:induction false} ReadyTakesAPlace(log: seq<Entry>)
    requires log != [] && log[0].Control?
    ensures |ReplayedIn(log)| <= |log| - 1
  {
    var n := |log| - 1;
    if n == 0 {
      assert log[..0] == [];
    } else {
      ReadyTakesAPlace(log[..n]);
    }
  }

  /** The queue holds 128 messages, the ready message is one of them, and senders never wait. */
  lemma ReplayNeedsReader(states: seq<State>, steps: seq<Step>, i: nat, a: nat)
    requires IsRun(states, steps) && i < |states| && a in states[i].attachments
    ensures |ReplayedIn(states[i].attachments[a].log)| <= states[i].attachments[a].taken + QUEUE_SIZE - 1
  {
    RunsKeepQueues(states, steps, i);
    var log := states[i].attachments[a].log;
    assert LogOk(log, ProgressOf(states[i], a));
    if log != [] {
      ReadyTakesAPlace(log);
    }
  }

  /** The attach of `a` reached its installation. */
  predicate Succeeded(s: State, a: nat) {
    a in s.installed || s.attacher == Installing(a)
  }

  /** It is not going on any more. */
  predicate Ended(s: State, a: nat) {
    Succeeded(s, a) || !Attaching(s, a)
  }

  /**
    As long as nothing is taken from its queue and it is not closed, an attach that has ended reached its installation
    exactly when its snapshots returned at most 127 frames.
  */
  lemma IdleAttachSucceedsIff(states: seq<State>, steps: seq<Step>, i: nat, a: nat)
    requires IsRun(states, steps) && i < |states| && a in states[i].attachments
    requires states[i].attachments[a].taken == 0 && !states[i].attachments[a].done && Ended(states[i], a)
    ensures a in states[i].snaps && SnapsWithin(states[i].core.published, states[i].snaps[a])
    ensures Succeeded(states[i], a) <==> |ReplayOf(states[i].core.published, states[i].snaps[a])| <= QUEUE_SIZE - 1
  {
    RunsKeepQueues(states, steps, i);
    var s := states[i];
    assert Sound(s, a) && GaveUpOk(s, a);
    if Succeeded(s, a) {
      assert StageOf(s, a) == Settled;
      ReplayNeedsReader(states, steps, i, a);
    }
  }

  /** In particular, with nothing published meanwhile: exactly when fewer than 128 frames were ever published. */
  lemma QuietAttachSucceedsIff(states: seq<State>, steps: seq<Step>, i: nat, a: nat)
    requires IsRun(states, steps) && i < |states| && a in states[i].attachments && a in states[i].snaps
    requires states[i].attachments[a].taken == 0 && !states[i].attachments[a].done && Ended(states[i], a)
    requires states[i].snaps[a] != [] && states[i].snaps[a][0] == |states[i].core.published|
    ensures Succeeded(states[i], a) <==> |states[i].core.published| < QUEUE_SIZE
  {
    IdleAttachSucceedsIff(states, steps, i, a);
    RunsKeepInv(states, steps, i);
    var s := states[i];
    assert Sound(s, a);
    var snaps, n := s.snaps[a], |s.core.published|;
    StrictIsMonotone(snaps, StageOf(s, a).Settled?, s.core.published);
    MonotoneIsConstant(snaps, n);
    ReplayContiguousIff(s.core.published, snaps);
  }

  lemma {:induction false} MonotoneIsConstant(snaps: seq<nat>, n: nat)
    requires snaps != [] && snaps[0] == n && forall k :: 0 <= k < |snaps| ==> snaps[k] <= n
    requires forall k :: 0 < k < |snaps| ==> snaps[k-1] <= snaps[k]
    ensures forall k :: 0 <= k < |snaps| ==> snaps[k] == n
  {
    if |snaps| > 1 {
      var init := snaps[..|snaps|-1];
      MonotoneIsConstant(init, n);
      assert init[|snaps|-2] == snaps[|snaps|-2];
      assert forall k :: 0 <= k < |init| ==> snaps[k] == init[k];
    }
  }

  /** The replay of an unread queue, `k` frames on. */
  function Unread(frames: seq<Frame>, k: nat): seq<Entry>
    requires k <= |frames|
  {
    [Control] + seq(k, i requires 0 <= i < k => Replayed(frames[i]))
  }

  lemma OneMoreReplayed(published: seq<Payload>, frames: seq<Frame>, k: nat)
    requires k + 1 < |frames| && k + 1 < QUEUE_SIZE
    ensures Guard(Attending(published, Replaying(0, frames[k..]), Unread(frames, k), [|published|]), AttachReplay(true))
    ensures Next(Attending(published, Replaying(0, frames[k..]), Unread(frames, k), [|published|]), AttachReplay(true)) ==
      Attending(published, Replaying(0, frames[k+1..]), Unread(frames, k + 1), [|published|])
  {
    assert frames[k..][1..] == frames[k+1..] && frames[k..][0] == frames[k];
    assert Unread(frames, k) + [Replayed(frames[k])] == Unread(frames, k + 1);
  }

  lemma {:induction false} ReplaysUnread(published: seq<Payload>, frames: seq<Frame>, k: nat) returns (states: seq<State>, steps: seq<Step>)
    requires frames == SnapshotAfter(published, 0) && k < |frames| && k < QUEUE_SIZE
    ensures IsRun(states, steps)
    ensures Final(states) == Attending(published, Replaying(0, frames[k..]), Unread(frames, k), [|published|])
  {
    if k == 0 {
      states, steps := Greeted(published);
      SnapshotLeads(published);
      assert frames[0..] == frames && Unread(frames, 0) == [Control];
      states, steps := Then(states, steps, AttachSnapshot, Attending(published, Replaying(0, frames), [Control], [|published|]));
    } else {
      states, steps := ReplaysUnread(published, frames, k - 1);
      OneMoreReplayed(published, frames, k - 1);
      states, steps := Then(states, steps, AttachReplay(true), Attending(published, Replaying(0, frames[k..]), Unread(frames, k), [|published|]));
    }
  }

  /** It happens to every session with at least 128 frames: the attach ends without an attachment. */
  lemma UnreadAttachFails(published: seq<Payload>) returns (states: seq<State>, steps: seq<Step>)
    requires |published| >= QUEUE_SIZE
    ensures IsRun(states, steps)
    ensures var s := Final(states);
            && s.core == Core(published, false, None, false) && s.attacher.Free? && s.installed == map[]
            && 0 in s.attachments && s.attachments[0].taken == 0 && !s.attachments[0].done
  {
    var frames, k := SnapshotAfter(published, 0), QUEUE_SIZE - 1;
    states, steps := ReplaysUnread(published, frames, k);
    assert |Unread(frames, k)| == QUEUE_SIZE;
    states, steps := Then(states, steps, AttachReplay(false), Attending(published, Free, Unread(frames, k), [|published|]));
  }
}
