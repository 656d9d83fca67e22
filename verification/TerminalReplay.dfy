/**
  Attaching to a terminal session while its output is being published, one critical section at a time:
  any number of publishers (the session has two, stdout and stderr), repeated attaches under the attach mutex,
  detaches, closing, and a bounded queue per attachment that never blocks its senders.
*/
module TerminalReplay {
  import opened Types
  import opened TerminalHistory

  const QUEUE_SIZE := 128

  /** A message enqueued on an attachment's channel; a live one with the publisher that sent it. */
  datatype Entry = Control | Replayed(frame: Frame) | Live(frame: Frame, sender: nat)

  /** An attachment: everything ever enqueued, how much of it the writer took, and whether `done` is closed. */
  datatype Attachment = Attachment(log: seq<Entry>, taken: nat, done: bool)

  datatype Publisher = Sending(frame: Frame, target: nat) | Clearing(target: nat)

  /** Where the holder of the attach mutex is. */
  datatype Attacher =
    | Free
    | Entered
    | Admitted
    | TimerOff
    | Replacing(a: nat, previous: nat)
    | Greeting(a: nat)
    | Looking(a: nat)
    | Replaying(a: nat, frames: seq<Frame>)
    | Installing(a: nat)

  /**
    `publishers` holds the ones that are past their critical section. `snaps` is history: for each attachment the
    number of frames published at each of its snapshots, so its last element is the attacher's replayedSeq. So are
    the values of `installed`: the number of frames published when the attachment was installed. `cancelled` is the
    session's context, cancelled just before the session is closed.
  */
  datatype State = State(
    core: Core,
    publishers: map<nat, Publisher>,
    attacher: Attacher,
    attachments: map<nat, Attachment>,
    installed: map<nat, nat>,
    notices: set<nat>,
    snaps: map<nat, seq<nat>>,
    cancelled: bool
  )

  datatype Step =
    | Publish(p: nat, payload: Payload)
    | PublisherSends(p: nat, ok: bool)
    | PublisherClears(p: nat)
    | AttachEnter
    | AttachCheckClosed
    | AttachStopTimer
    | AttachCreate(a: nat)
    | AttachDropOld
    | AttachGreet(ok: bool)
    | AttachSnapshot
    | AttachReplay(ok: bool)
    | AttachInstall
    | Detach(a: nat)
    | WriterTakes(a: nat)
    | AttachmentCloses(a: nat)
    | CancelSession
    | CloseSession
    | NotifyClose(a: nat, ok: bool)

  predicate Room(att: Attachment) {
    |att.log| - att.taken < QUEUE_SIZE
  }

  /** A send succeeds only with room, and fails only without room or after `done`; with both it may go either way. */
  predicate SendMay(att: Attachment, ok: bool) {
    if ok then Room(att) else att.done || !Room(att)
  }

  function Sent(s: State, a: nat, e: Entry, ok: bool): State
    requires a in s.attachments
  {
    if ok then s.(attachments := s.attachments[a := s.attachments[a].(log := s.attachments[a].log + [e])]) else s
  }

  function Done(s: State, a: nat): State
    requires a in s.attachments
  {
    s.(attachments := s.attachments[a := s.attachments[a].(done := true)])
  }

  function Last(snaps: seq<nat>): nat {
    if snaps == [] then 0 else snaps[|snaps| - 1]
  }

  /** The attach under way is the one of `a`. */
  predicate Attaching(s: State, a: nat) {
    match s.attacher
    case Free => false
    case Entered => false
    case Admitted => false
    case TimerOff => false
    case _ => s.attacher.a == a
  }

  predicate Guard(s: State, step: Step) {
    match step
    case Publish(p, _) => p !in s.publishers
    case PublisherSends(p, ok) =>
      && p in s.publishers && s.publishers[p].Sending?
      && s.publishers[p].target in s.attachments && SendMay(s.attachments[s.publishers[p].target], ok)
    case PublisherClears(p) => p in s.publishers && s.publishers[p].Clearing?
    case AttachEnter => s.attacher.Free?
    case AttachCheckClosed => s.attacher.Entered?
    case AttachStopTimer => s.attacher.Admitted?
    case AttachCreate(a) => s.attacher.TimerOff? && a !in s.attachments && a !in s.installed && a !in s.snaps
    case AttachDropOld => s.attacher.Replacing? && s.attacher.previous in s.attachments
    case AttachGreet(ok) =>
      s.attacher.Greeting? && s.attacher.a in s.attachments && SendMay(s.attachments[s.attacher.a], ok)
    case AttachSnapshot => s.attacher.Looking? && s.attacher.a in s.snaps
    case AttachReplay(ok) =>
      && s.attacher.Replaying? && s.attacher.frames != []
      && s.attacher.a in s.attachments && SendMay(s.attachments[s.attacher.a], ok)
    case AttachInstall => s.attacher.Installing?
    case Detach(a) => a in s.installed
    case WriterTakes(a) => a in s.attachments && s.attachments[a].taken < |s.attachments[a].log|
    case AttachmentCloses(a) =>
      // While it is being attached only its writer closes it: after a message it could not write, or on cancellation.
      a in s.attachments && (Attaching(s, a) ==> s.cancelled || s.attachments[a].taken > 0)
    case CancelSession => !s.cancelled
    case CloseSession => s.cancelled && !s.core.closed
    case NotifyClose(a, ok) => a in s.notices && a in s.attachments && SendMay(s.attachments[a], ok)
  }

  function Next(s: State, step: Step): State
    requires Guard(s, step)
  {
    match step
    case Publish(p, payload) =>
      var core := Published(s.core, payload);
      if s.core.closed || s.core.attachment.None? then s.(core := core)
      else s.(core := core,
              publishers := s.publishers[p := Sending(FrameAt(core.published, |core.published|), s.core.attachment.value)])
    case PublisherSends(p, ok) =>
      var pub := s.publishers[p];
      var s' := Sent(s, pub.target, Live(pub.frame, p), ok);
      s'.(publishers := if ok then s.publishers - {p} else s.publishers[p := Clearing(pub.target)])
    case PublisherClears(p) =>
      s.(core := Cleared(s.core, s.publishers[p].target), publishers := s.publishers - {p})
    case AttachEnter => s.(attacher := Entered)
    case AttachCheckClosed => s.(attacher := if s.core.closed then Free else Admitted)
    case AttachStopTimer => s.(core := TimerStopped(s.core), attacher := TimerOff)
    case AttachCreate(a) =>
      s.(attachments := s.attachments[a := Attachment([], 0, false)],
         snaps := s.snaps[a := []],
         attacher := if s.core.attachment.Some? then Replacing(a, s.core.attachment.value) else Greeting(a))
    case AttachDropOld =>
      Done(s, s.attacher.previous).(core := Removed(s.core, s.attacher.previous), attacher := Greeting(s.attacher.a))
    case AttachGreet(ok) =>
      Sent(s, s.attacher.a, Control, ok).(attacher := if ok then Looking(s.attacher.a) else Free)
    case AttachSnapshot =>
      var a := s.attacher.a;
      var frames := SnapshotAfter(s.core.published, Last(s.snaps[a]));
      s.(snaps := s.snaps[a := s.snaps[a] + [|s.core.published|]],
         attacher := if frames == [] then Installing(a) else Replaying(a, frames))
    case AttachReplay(ok) =>
      var a, frames := s.attacher.a, s.attacher.frames;
      Sent(s, a, Replayed(frames[0]), ok).(
        attacher := if !ok then Free else if |frames| == 1 then Looking(a) else Replaying(a, frames[1..]))
    case AttachInstall =>
      s.(core := Installed(s.core, s.attacher.a), installed := s.installed[s.attacher.a := |s.core.published|],
         attacher := Free)
    case Detach(a) => s.(core := Cleared(s.core, a))
    case WriterTakes(a) => s.(attachments := s.attachments[a := s.attachments[a].(taken := s.attachments[a].taken + 1)])
    case AttachmentCloses(a) => Done(s, a)
    case CancelSession => s.(cancelled := true)
    case CloseSession =>
      s.(core := Closed(s.core), notices := s.notices + if s.core.attachment.Some? then {s.core.attachment.value} else {})
    case NotifyClose(a, ok) => Done(Sent(s, a, Control, ok), a).(notices := s.notices - {a})
  }

  predicate Init(s: State) {
    s == State(Core([], false, None, false), map[], Free, map[], map[], {}, map[], false)
  }

  ghost predicate IsRun(states: seq<State>, steps: seq<Step>) {
    && |states| == |steps| + 1
    && Init(states[0])
    && forall i :: 0 <= i < |steps| ==> Guard(states[i], steps[i]) && states[i+1] == Next(states[i], steps[i])
  }

  // What an attachment was sent.

  function ReplayedIn(log: seq<Entry>): seq<Frame> {
    if log == [] then [] else
      var n := |log| - 1;
      if log[n].Replayed? then ReplayedIn(log[..n]) + [log[n].frame] else ReplayedIn(log[..n])
  }

  function LiveIn(log: seq<Entry>): seq<Frame> {
    if log == [] then [] else
      var n := |log| - 1;
      if log[n].Live? then LiveIn(log[..n]) + [log[n].frame] else LiveIn(log[..n])
  }

  lemma Enqueue(log: seq<Entry>, e: Entry)
    ensures ReplayedIn(log + [e]) == if e.Replayed? then ReplayedIn(log) + [e.frame] else ReplayedIn(log)
    ensures LiveIn(log + [e]) == if e.Live? then LiveIn(log) + [e.frame] else LiveIn(log)
  {
    assert (log + [e])[..|log|] == log;
  }

  ghost predicate SnapsWithin(published: seq<Payload>, snaps: seq<nat>) {
    forall k :: 0 <= k < |snaps| ==> snaps[k] <= |published|
  }

  /** Everything the snapshots of one attach return, in order. */
  function ReplayOf(published: seq<Payload>, snaps: seq<nat>): seq<Frame>
    requires forall k :: 0 <= k < |snaps| ==> snaps[k] <= |published|
  {
    if snaps == [] then [] else
      var n := |snaps| - 1;
      ReplayOf(published, snaps[..n]) + SnapshotAfter(published[..snaps[n]], Last(snaps[..n]))
  }

  /** The first `m` snapshots each saw something new. */
  ghost predicate Strict(snaps: seq<nat>, m: nat) {
    m <= |snaps| && forall k :: 0 <= k < m ==> snaps[k] > Last(snaps[..k])
  }

  lemma {:induction false} ReplayOfStable(published: seq<Payload>, published': seq<Payload>, snaps: seq<nat>)
    requires published <= published' && SnapsWithin(published, snaps)
    ensures ReplayOf(published, snaps) == ReplayOf(published', snaps)
  {
    if snaps != [] {
      var n := |snaps| - 1;
      ReplayOfStable(published, published', snaps[..n]);
      assert published[..snaps[n]] == published'[..snaps[n]];
    }
  }

  ghost predicate Ascending(frames: seq<Frame>) {
    forall i, j :: 0 <= i < j < |frames| ==> frames[i].number < frames[j].number
  }

  /** Replayed frames are genuine, strictly increasing and no newer than the last snapshot. */
  lemma {:induction false} ReplayAscends(published: seq<Payload>, snaps: seq<nat>)
    requires SnapsWithin(published, snaps)
    requires forall k :: 0 < k < |snaps| ==> snaps[k-1] <= snaps[k]
    ensures Ascending(ReplayOf(published, snaps))
    ensures forall f :: f in ReplayOf(published, snaps) ==> 1 <= f.number <= Last(snaps) && f == FrameAt(published, f.number)
  {
    if snaps != [] {
      var n := |snaps| - 1;
      ReplayAscends(published, snaps[..n]);
      SnapshotAscends(published[..snaps[n]], Last(snaps[..n]));
      var before, more := ReplayOf(published, snaps[..n]), SnapshotAfter(published[..snaps[n]], Last(snaps[..n]));
      forall f: Frame | f in before + more ensures 1 <= f.number <= snaps[n] && f == FrameAt(published, f.number) {
        assert f in before || f in more;
      }
    }
  }

  lemma SnapshotAscends(published: seq<Payload>, after: nat)
    ensures Ascending(SnapshotAfter(published, after))
    ensures forall f :: f in SnapshotAfter(published, after) ==>
      after < f.number <= |published| && 1 <= f.number && f == FrameAt(published, f.number)
  {
    if after < |published| {
      FramesAscend(published, Max(after, Evicted(published)));
    }
  }

  lemma FramesAscend(published: seq<Payload>, after: nat)
    requires after <= |published|
    ensures Ascending(FramesAfter(published, after))
    ensures forall f :: f in FramesAfter(published, after) ==> after < f.number <= |published| && f == FrameAt(published, f.number)
  {
    var frames := FramesAfter(published, after);
    forall f | f in frames ensures after < f.number <= |published| && f == FrameAt(published, f.number) {
      var i :| 0 <= i < |frames| && frames[i] == f;
      assert f == Frame(after + 1 + i, published[after + i]);
    }
  }
}
