/** What a terminal client can rely on, over every run of the session. */
module TerminalPromises {
  import opened Types
  import opened TerminalHistory
  import opened TerminalReplay
  import opened TerminalSafety

  predicate HasFrame(e: Entry) {
    e.Replayed? || e.Live?
  }

  /** Where entry `i` of a log ends up among the replayed and among the live frames. */
  lemma {:induction false} Located(log: seq<Entry>, i: nat)
    requires i < |log|
    ensures ReplayedIn(log[..i]) <= ReplayedIn(log) && LiveIn(log[..i]) <= LiveIn(log)
    ensures log[i].Replayed? ==> ReplayedIn(log[..i]) + [log[i].frame] <= ReplayedIn(log)
    ensures log[i].Live? ==> LiveIn(log[..i]) + [log[i].frame] <= LiveIn(log)
  {
    var n := |log| - 1;
    if i < n {
      Located(log[..n], i);
      assert log[..n][..i] == log[..i];
    }
  }

  lemma OrderedPair(log: seq<Entry>, j: nat, k: nat) returns (x: nat, y: nat)
    requires j < k < |log|
    requires (log[j].Replayed? && log[k].Replayed?) || (log[j].Live? && log[k].Live?)
    ensures x < y
    ensures log[k].Replayed? ==> y < |ReplayedIn(log)| && ReplayedIn(log)[x] == log[j].frame && ReplayedIn(log)[y] == log[k].frame
    ensures log[k].Live? ==> y < |LiveIn(log)| && LiveIn(log)[x] == log[j].frame && LiveIn(log)[y] == log[k].frame
  {
    Located(log, k);
    Located(log[..k], j);
    assert log[..k][..j] == log[..j] && log[..k][j] == log[j];
    if log[k].Replayed? {
      x, y := |ReplayedIn(log[..j])|, |ReplayedIn(log[..k])|;
    } else {
      x, y := |LiveIn(log[..j])|, |LiveIn(log[..k])|;
    }
  }

  lemma FrameInLists(log: seq<Entry>, k: nat)
    requires k < |log|
    ensures log[k].Replayed? ==> log[k].frame in ReplayedIn(log)
    ensures log[k].Live? ==> log[k].frame in LiveIn(log)
  {
    Located(log, k);
    if log[k].Replayed? {
      assert ReplayedIn(log)[|ReplayedIn(log[..k])|] == log[k].frame;
    }
    if log[k].Live? {
      assert LiveIn(log)[|LiveIn(log[..k])|] == log[k].frame;
    }
  }

  lemma {:induction false} StrictIsMonotone(snaps: seq<nat>, settled: bool, published: seq<Payload>)
    requires SnapsOk(published, snaps, settled)
    ensures forall k :: 0 < k < |snaps| ==> snaps[k-1] <= snaps[k]
  {
    forall k | 0 < k < |snaps| ensures snaps[k-1] <= snaps[k] {
      assert Last(snaps[..k]) == snaps[k-1];
    }
  }

  /** What the invariant says about one attachment's stream. */
  lemma StreamFacts(s: State, a: nat)
    requires Inv(s) && a in s.attachments
    ensures var log := s.attachments[a].log;
            && SnapsWithin(s.core.published, s.snaps[a])
            && Ascending(ReplayedIn(log)) && Distinct(LiveIn(log))
            && (forall f :: f in ReplayedIn(log) ==> Genuine(s.core.published, f) && f.number <= Last(s.snaps[a]))
            && (forall f :: f in LiveIn(log) ==>
                  Genuine(s.core.published, f) && a in s.installed && f.number > s.installed[a] >= Last(s.snaps[a]))
  {
    assert Sound(s, a);
    var log, published, snaps := s.attachments[a].log, s.core.published, s.snaps[a];
    StrictIsMonotone(snaps, StageOf(s, a).Settled?, published);
    ReplayAscends(published, snaps);
    PrefixFacts(ReplayedIn(log), ReplayOf(published, snaps), published, Last(snaps));
  }

  lemma PrefixFacts(prefix: seq<Frame>, frames: seq<Frame>, published: seq<Payload>, bound: nat)
    requires prefix <= frames && Ascending(frames)
    requires forall f :: f in frames ==> Genuine(published, f) && f.number <= bound
    ensures Ascending(prefix) && forall f :: f in prefix ==> Genuine(published, f) && f.number <= bound
  {
    forall f | f in prefix ensures f in frames {
    }
  }

  /**
    At-most-once delivery. Under every interleaving each attachment is sent each sequence number at most once,
    with the payload that was published under it; replayed frames are strictly increasing; and every live
    frame is newer than everything replayed.
  */
  lemma AtMostOnce(states: seq<State>, steps: seq<Step>, i: nat, a: nat, j: nat, k: nat)
    requires IsRun(states, steps) && i < |states| && a in states[i].attachments
    requires var log := states[i].attachments[a].log; j < k < |log| && HasFrame(log[j]) && HasFrame(log[k])
    ensures var log := states[i].attachments[a].log;
            && Genuine(states[i].core.published, log[j].frame)
            && log[j].frame.number != log[k].frame.number
            && (log[j].Replayed? && log[k].Replayed? ==> log[j].frame.number < log[k].frame.number)
            && (log[j].Replayed? && log[k].Live? ==> log[j].frame.number < log[k].frame.number)
            && (log[j].Live? && log[k].Replayed? ==> log[j].frame.number > log[k].frame.number)
  {
    RunsKeepInv(states, steps, i);
    StreamFacts(states[i], a);
    var log := states[i].attachments[a].log;
    FrameInLists(log, j);
    FrameInLists(log, k);
    if log[j].Replayed? == log[k].Replayed? {
      var x, y := OrderedPair(log, j, k);
    }
  }

  // Completeness of the replay.

  /** The frames numbered from+1 up to `to`, in order, nothing missing. */
  ghost predicate Contiguous(frames: seq<Frame>, from: nat, to: nat) {
    from <= to && |frames| == to - from && forall i :: 0 <= i < |frames| ==> frames[i].number == from + 1 + i
  }

  /** Between consecutive snapshots at most a history's worth of frames was published. */
  ghost predicate KeepsUp(snaps: seq<nat>) {
    forall k :: 0 < k < |snaps| ==> snaps[k] - snaps[k-1] <= HISTORY_FRAMES
  }

  /** One snapshot: contiguous from what was replayed, or from the oldest frame still retained. */
  lemma SnapshotIsContiguous(published: seq<Payload>, n: nat, after: nat)
    requires after <= n <= |published|
    ensures Contiguous(SnapshotAfter(published[..n], after), Max(after, EvictedAt(n)), n)
  {
  }

  lemma ContiguousJoin(frames: seq<Frame>, more: seq<Frame>, from: nat, mid: nat, to: nat)
    requires Contiguous(frames, from, mid) && Contiguous(more, mid, to)
    ensures Contiguous(frames + more, from, to)
  {
  }

  lemma {:induction false} ReplayContiguousIff(published: seq<Payload>, snaps: seq<nat>)
    requires snaps != [] && SnapsWithin(published, snaps)
    requires forall k :: 0 < k < |snaps| ==> snaps[k-1] <= snaps[k]
    ensures EvictedAt(snaps[0]) <= Last(snaps)
    ensures |ReplayOf(published, snaps)| <= Last(snaps) - EvictedAt(snaps[0])
    ensures !KeepsUp(snaps) ==> |ReplayOf(published, snaps)| < Last(snaps) - EvictedAt(snaps[0])
    ensures KeepsUp(snaps) ==> Contiguous(ReplayOf(published, snaps), EvictedAt(snaps[0]), Last(snaps))
  {
    var n := |snaps| - 1;
    var init := snaps[..n];
    var before, more := ReplayOf(published, init), SnapshotAfter(published[..snaps[n]], Last(init));
    assert ReplayOf(published, snaps) == before + more;
    if n == 0 {
      SnapshotIsContiguous(published, snaps[0], 0);
      assert before == [];
    } else {
      ReplayContiguousIff(published, init);
      assert Last(init) == snaps[n-1];
      SnapshotIsContiguous(published, snaps[n], snaps[n-1]);
      KeepsUpSplits(snaps);
      ContiguousStep(before, more, EvictedAt(snaps[0]), snaps[n-1], snaps[n], KeepsUp(init));
    }
  }

  /** One more snapshot: the run goes on unless it was broken before or more than a history was published in between. */
  lemma ContiguousStep(before: seq<Frame>, more: seq<Frame>, from: nat, mid: nat, to: nat, kept: bool)
    requires from <= mid <= to && Contiguous(more, Max(mid, EvictedAt(to)), to)
    requires if kept then Contiguous(before, from, mid) else |before| < mid - from
    ensures if kept && to - mid <= HISTORY_FRAMES then Contiguous(before + more, from, to) else |before + more| < to - from
  {
    if kept && to - mid <= HISTORY_FRAMES {
      ContiguousJoin(before, more, from, mid, to);
    }
  }

  lemma KeepsUpSplits(snaps: seq<nat>)
    requires |snaps| >= 2
    ensures var n := |snaps| - 1;
            KeepsUp(snaps) <==> KeepsUp(snaps[..n]) && snaps[n] - snaps[n-1] <= HISTORY_FRAMES
  {
    var n := |snaps| - 1;
    if KeepsUp(snaps[..n]) && snaps[n] - snaps[n-1] <= HISTORY_FRAMES {
      forall k | 0 < k < |snaps| ensures snaps[k] - snaps[k-1] <= HISTORY_FRAMES {
        if k < n {
          assert snaps[..n][k] - snaps[..n][k-1] <= HISTORY_FRAMES;
        }
      }
    }
  }

  /**
    Replay completeness. An attachment that was installed has been sent exactly what its snapshots returned; its
    loop ended at a snapshot that found nothing newer than what it had replayed; and what it was sent is one
    unbroken run from the oldest frame retained at the first snapshot up to the last snapshot exactly when at
    most 256 frames were published between any two consecutive snapshots.
  */
  lemma ReplayIsComplete(states: seq<State>, steps: seq<Step>, i: nat, a: nat)
    requires IsRun(states, steps) && i < |states| && a in states[i].attachments && a in states[i].installed
    ensures a in states[i].snaps
    ensures var snaps, log := states[i].snaps[a], states[i].attachments[a].log;
            && snaps != []
            && Last(snaps[..|snaps|-1]) == Last(snaps) <= |states[i].core.published|
            && (Contiguous(ReplayedIn(log), EvictedAt(snaps[0]), Last(snaps)) <==> KeepsUp(snaps))
  {
    RunsKeepInv(states, steps, i);
    var s := states[i];
    assert Sound(s, a);
    StrictIsMonotone(s.snaps[a], true, s.core.published);
    ReplayContiguousIff(s.core.published, s.snaps[a]);
  }

  // The replay loop ends.

  lemma {:induction false} StrictCounts(snaps: seq<nat>, m: nat)
    requires Strict(snaps, m)
    ensures m <= Last(snaps[..m])
  {
    if m > 0 {
      StrictCounts(snaps, m - 1);
      assert snaps[..m][m-1] == snaps[m-1];
    }
  }

  /** Every snapshot but the last saw something new, so an attach takes at most one more than there are frames. */
  lemma ReplayRoundsAreBounded(states: seq<State>, steps: seq<Step>, i: nat, a: nat)
    requires IsRun(states, steps) && i < |states| && a in states[i].attachments
    ensures a in states[i].snaps
    ensures |states[i].snaps[a]| <= |states[i].core.published| + 1
    ensures a !in states[i].installed && states[i].attacher != Installing(a) ==> |states[i].snaps[a]| <= |states[i].core.published|
  {
    RunsKeepInv(states, steps, i);
    var s := states[i];
    var snaps := s.snaps[a];
    assert Sound(s, a);
    var m := if StageOf(s, a).Settled? then |snaps| - 1 else |snaps|;
    StrictCounts(snaps, m);
    if m > 0 {
      assert snaps[..m][m-1] == snaps[m-1];
    }
  }

  lemma ClosedStep(s: State, step: Step)
    requires Guard(s, step) && s.core.closed
    ensures Next(s, step).core.closed && Next(s, step).core.published == s.core.published
  {
  }

  lemma ClosedStepOf(states: seq<State>, steps: seq<Step>, k: nat)
    requires IsRun(states, steps) && k < |steps| && states[k].core.closed
    ensures states[k+1].core.closed && states[k+1].core.published == states[k].core.published
  {
    ClosedStep(states[k], steps[k]);
  }

  ghost predicate Frozen(s: State, s': State) {
    s.core.closed ==> s'.core.closed && s'.core.published == s.core.published
  }

  lemma {:induction false} FrozenThroughout(states: seq<State>, i: nat, j: nat)
    requires i <= j < |states| && forall k :: i <= k < j ==> Frozen(states[k], states[k+1])
    ensures Frozen(states[i], states[j])
  {
    if i < j {
      FrozenThroughout(states, i, j - 1);
      assert Frozen(states[j-1], states[j-1+1]);
    }
  }

  lemma ClosedFreezes(states: seq<State>, steps: seq<Step>, i: nat, j: nat)
    requires IsRun(states, steps) && i <= j < |states| && states[i].core.closed
    ensures states[j].core.closed && states[j].core.published == states[i].core.published
  {
    forall k | i <= k < j ensures Frozen(states[k], states[k+1]) {
      if states[k].core.closed {
        ClosedStepOf(states, steps, k);
      }
    }
    FrozenThroughout(states, i, j);
  }

  /** After close nothing is published and no idle timer is ever armed again. */
  lemma ClosedIsFinal(states: seq<State>, steps: seq<Step>, i: nat, j: nat)
    requires IsRun(states, steps) && i <= j < |states| && states[i].core.closed
    ensures states[j].core.closed && !states[j].core.timer
    ensures states[j].core.published == states[i].core.published
  {
    ClosedFreezes(states, steps, i, j);
    RunsKeepInv(states, steps, j);
  }

  // What happens to attachments that are replaced or closed.

  /** A closed session admits nobody: an attach that finds it closed ends there. */
  lemma ClosedRefuses(s: State)
    requires Guard(s, AttachCheckClosed)
    ensures Next(s, AttachCheckClosed).attacher.Free? <==> s.core.closed
    ensures Next(s, AttachCheckClosed) == s.(attacher := Next(s, AttachCheckClosed).attacher)
  {
  }

  /** A new attach closes the attachment it finds, and the session is without one until the new one is installed. */
  lemma ReplacedIsClosed(states: seq<State>, steps: seq<Step>, k: nat)
    requires IsRun(states, steps) && k < |steps| && steps[k].AttachDropOld?
    ensures var previous := states[k].attacher.previous;
            previous in states[k+1].attachments && states[k+1].attachments[previous].done && states[k+1].core.attachment != Some(previous)
  {
    assert states[k+1] == Next(states[k], steps[k]);
  }

  /** The attachment is to be told that the session was closed, or its connection is closed already. */
  predicate Dismissed(s: State, a: nat) {
    a in s.notices || (a in s.attachments && s.attachments[a].done)
  }

  lemma DismissedStep(s: State, step: Step, a: nat)
    requires Shape(s) && Guard(s, step) && Dismissed(s, a)
    ensures Dismissed(Next(s, step), a)
  {
    if ByAttacher(step) {
      AttacherKeepsDismissed(s, step, a);
    } else {
      OthersKeepDismissed(s, step, a);
    }
  }

  lemma AttacherKeepsDismissed(s: State, step: Step, a: nat)
    requires Guard(s, step) && ByAttacher(step) && Dismissed(s, a)
    ensures Dismissed(Next(s, step), a)
  {
  }

  lemma OthersKeepDismissed(s: State, step: Step, a: nat)
    requires Guard(s, step) && !ByAttacher(step) && Dismissed(s, a)
    ensures Dismissed(Next(s, step), a)
  {
  }

  lemma CloseDismisses(s: State, a: nat)
    requires Guard(s, CloseSession) && s.core.attachment == Some(a)
    ensures Dismissed(Next(s, CloseSession), a)
  {
  }

  ghost predicate DismissedKept(s: State, s': State, a: nat) {
    Dismissed(s, a) ==> Dismissed(s', a)
  }

  lemma {:induction false} DismissedThroughout(states: seq<State>, k: nat, m: nat, a: nat)
    requires k <= m < |states| && forall q :: k <= q < m ==> DismissedKept(states[q], states[q+1], a)
    ensures DismissedKept(states[k], states[m], a)
  {
    if k < m {
      DismissedThroughout(states, k, m - 1, a);
      assert DismissedKept(states[m-1], states[m-1+1], a);
    }
  }

  /** Closing a session dismisses its attachment: from then on it has its notice to come or is closed. */
  lemma ClosedDismisses(states: seq<State>, steps: seq<Step>, k: nat, m: nat, a: nat)
    requires IsRun(states, steps) && k < m < |states| && steps[k] == CloseSession && states[k].core.attachment == Some(a)
    ensures Dismissed(states[m], a)
  {
    CloseDismisses(states[k], a);
    forall q | k + 1 <= q < m ensures DismissedKept(states[q], states[q+1], a) {
      DismissedStepOf(states, steps, q, a);
    }
    DismissedThroughout(states, k + 1, m, a);
  }

  lemma DismissedStepOf(states: seq<State>, steps: seq<Step>, q: nat, a: nat)
    requires IsRun(states, steps) && q < |steps|
    ensures DismissedKept(states[q], states[q+1], a)
  {
    RunsKeepInv(states, steps, q);
    if Dismissed(states[q], a) {
      DismissedStep(states[q], steps[q], a);
    }
  }
}
