/** What every interleaving of publishers, attaches and detaches keeps, and the promises that follow. */
module TerminalSafety {
  import opened Types
  import opened TerminalHistory
  import opened TerminalReplay

  /** How far the attach of an attachment has come; while looping, which snapshot frames are still to be sent. */
  datatype Stage = Looping(rest: seq<Frame>) | Settled | Abandoned

  function StageOf(s: State, a: nat): Stage {
    if a in s.installed || s.attacher == Installing(a) then Settled
    else if s.attacher.Replaying? && s.attacher.a == a then Looping(s.attacher.frames)
    else if (s.attacher.Replacing? || s.attacher.Greeting? || s.attacher.Looking?) && s.attacher.a == a then Looping([])
    else Abandoned
  }

  ghost predicate SnapsOk(published: seq<Payload>, snaps: seq<nat>, settled: bool) {
    && SnapsWithin(published, snaps)
    && (if settled then |snaps| >= 1 && Strict(snaps, |snaps| - 1) && Last(snaps) == Last(snaps[..|snaps|-1])
        else Strict(snaps, |snaps|))
  }

  ghost predicate ReplayOk(published: seq<Payload>, replayed: seq<Frame>, snaps: seq<nat>, stage: Stage)
    requires SnapsWithin(published, snaps)
  {
    match stage
    case Looping(rest) => replayed + rest == ReplayOf(published, snaps)
    case Settled => replayed == ReplayOf(published, snaps)
    case Abandoned => replayed <= ReplayOf(published, snaps)
  }

  ghost predicate Distinct(frames: seq<Frame>) {
    forall i, j :: 0 <= i < j < |frames| ==> frames[i].number != frames[j].number
  }

  ghost predicate Genuine(published: seq<Payload>, f: Frame) {
    1 <= f.number <= |published| && f == FrameAt(published, f.number)
  }

  /** Live frames: none before the attachment is installed, afterwards distinct ones published since then. */
  ghost predicate LiveOk(published: seq<Payload>, live: seq<Frame>, snaps: seq<nat>, joined: Option<nat>) {
    match joined
    case None => live == []
    case Some(n) =>
      && Last(snaps) <= n <= |published|
      && Distinct(live)
      && forall f :: f in live ==> Genuine(published, f) && f.number > n
  }

  ghost predicate QueueOk(att: Attachment) {
    att.taken <= |att.log| <= att.taken + QUEUE_SIZE
  }

  ghost predicate AttachmentOk(published: seq<Payload>, replayed: seq<Frame>, live: seq<Frame>, snaps: seq<nat>,
                               stage: Stage, joined: Option<nat>)
  {
    && SnapsOk(published, snaps, stage.Settled?)
    && ReplayOk(published, replayed, snaps, stage)
    && LiveOk(published, live, snaps, joined)
  }

  ghost predicate Shape(s: State) {
    && s.snaps.Keys == s.attachments.Keys
    && s.installed.Keys <= s.attachments.Keys
    && forall a :: a in s.attachments ==> QueueOk(s.attachments[a])
  }

  function Joined(s: State, a: nat): Option<nat> {
    if a in s.installed then Some(s.installed[a]) else None
  }

  ghost predicate Sound(s: State, a: nat)
    requires Shape(s) && a in s.attachments
  {
    var log := s.attachments[a].log;
    AttachmentOk(s.core.published, ReplayedIn(log), LiveIn(log), s.snaps[a], StageOf(s, a), Joined(s, a))
  }

  ghost predicate AttachmentsOk(s: State)
    requires Shape(s)
  {
    forall a :: a in s.attachments ==> Sound(s, a)
  }

  /** The attacher works on an attachment of its own. */
  ghost predicate AttacherOk(s: State)
    requires Shape(s)
  {
    match s.attacher
    case Replacing(a, previous) => a in s.attachments && a !in s.installed && previous in s.installed && s.snaps[a] == []
    case Greeting(a) => a in s.attachments && a !in s.installed && s.snaps[a] == []
    case Looking(a) => a in s.attachments && a !in s.installed
    case Replaying(a, frames) => a in s.attachments && a !in s.installed && frames != []
    case Installing(a) => a in s.attachments && a !in s.installed
    case _ => true
  }

  /** A frame on its way is newer than the installation of its target and has not been sent to anyone. */
  ghost predicate PublisherOk(s: State, pub: Publisher) {
    && pub.target in s.installed
    && (pub.Sending? ==>
          && Genuine(s.core.published, pub.frame)
          && pub.frame.number > s.installed[pub.target]
          && forall a :: a in s.attachments ==> pub.frame !in LiveIn(s.attachments[a].log))
  }

  ghost predicate PublishersOk(s: State) {
    && (forall p :: p in s.publishers ==> PublisherOk(s, s.publishers[p]))
    && (forall p, q :: p in s.publishers && q in s.publishers && p != q && s.publishers[p].Sending? && s.publishers[q].Sending? ==>
          s.publishers[p].frame.number != s.publishers[q].frame.number)
  }

  ghost predicate CoreOk(s: State) {
    && (s.core.attachment.Some? ==> s.core.attachment.value in s.installed)
    && s.notices <= s.installed.Keys
    && (s.core.closed ==> !s.core.timer)
  }

  ghost predicate Inv(s: State) {
    Shape(s) && AttachmentsOk(s) && AttacherOk(s) && PublishersOk(s) && CoreOk(s)
  }

  // Every step keeps the shape, the attacher's own attachment and the session's fields.

  /** Steps of the attacher; the others belong to publishers, writers and closing. */
  predicate ByAttacher(step: Step) {
    || step.AttachEnter? || step.AttachCheckClosed? || step.AttachStopTimer? || step.AttachCreate? || step.AttachDropOld?
    || step.AttachGreet? || step.AttachSnapshot? || step.AttachReplay? || step.AttachInstall?
  }

  lemma AttacherKeepsShape(s: State, step: Step)
    requires Shape(s) && Guard(s, step) && AttacherOk(s) && ByAttacher(step)
    ensures Shape(Next(s, step))
  {
  }

  lemma OthersKeepShape(s: State, step: Step)
    requires Shape(s) && Guard(s, step) && !ByAttacher(step)
    ensures Shape(Next(s, step))
  {
  }

  lemma StepKeepsShape(s: State, step: Step)
    requires Shape(s) && Guard(s, step) && AttacherOk(s)
    ensures Shape(Next(s, step))
  {
    if ByAttacher(step) {
      AttacherKeepsShape(s, step);
    } else {
      OthersKeepShape(s, step);
    }
  }

  lemma AttacherKeepsOwn(s: State, step: Step)
    requires Shape(s) && Guard(s, step) && AttacherOk(s) && CoreOk(s) && ByAttacher(step) && Shape(Next(s, step))
    ensures AttacherOk(Next(s, step))
  {
  }

  lemma OthersKeepAttacher(s: State, step: Step)
    requires Shape(s) && Guard(s, step) && AttacherOk(s) && !ByAttacher(step) && Shape(Next(s, step))
    ensures AttacherOk(Next(s, step))
  {
  }

  lemma StepKeepsAttacher(s: State, step: Step)
    requires Shape(s) && Guard(s, step) && AttacherOk(s) && CoreOk(s) && Shape(Next(s, step))
    ensures AttacherOk(Next(s, step))
  {
    if ByAttacher(step) {
      AttacherKeepsOwn(s, step);
    } else {
      OthersKeepAttacher(s, step);
    }
  }

  lemma StepKeepsCore(s: State, step: Step)
    requires Guard(s, step) && CoreOk(s)
    ensures CoreOk(Next(s, step))
  {
  }

  // Publishers: frames only become older, targets stay installed, and no frame is sent twice.

  lemma PublishKeepsPublishers(s: State, p: nat, payload: Payload)
    requires Shape(s) && PublishersOk(s) && CoreOk(s) && Guard(s, Publish(p, payload))
    requires forall a :: a in s.attachments ==> Older(s, a)
    ensures PublishersOk(Next(s, Publish(p, payload)))
  {
    var s' := Next(s, Publish(p, payload));
    forall q | q in s'.publishers ensures PublisherOk(s', s'.publishers[q]) {
      if q in s.publishers {
        assert PublisherOk(s, s.publishers[q]);
      }
    }
    forall q | q in s.publishers && s.publishers[q].Sending? ensures s.publishers[q].frame.number <= |s.core.published| {
      assert PublisherOk(s, s.publishers[q]);
    }
  }

  /** Everything sent live and every installation lies in the past. */
  ghost predicate Older(s: State, a: nat)
    requires a in s.attachments
  {
    && (a in s.installed ==> s.installed[a] <= |s.core.published|)
    && forall f :: f in LiveIn(s.attachments[a].log) ==> f.number <= |s.core.published|
  }

  lemma LiveSendKeepsPublishers(s: State, p: nat, ok: bool)
    requires Shape(s) && PublishersOk(s) && Guard(s, PublisherSends(p, ok))
    ensures PublishersOk(Next(s, PublisherSends(p, ok)))
  {
    var s' := Next(s, PublisherSends(p, ok));
    var pub := s.publishers[p];
    assert PublisherOk(s, pub);
    Enqueue(s.attachments[pub.target].log, Live(pub.frame, p));
    forall q | q in s'.publishers ensures PublisherOk(s', s'.publishers[q]) {
      assert PublisherOk(s, s.publishers[q]);
    }
  }

  /** Other steps put nothing live on a queue and leave installed attachments installed. */
  lemma OtherStepKeepsPublishers(s: State, step: Step)
    requires Shape(s) && PublishersOk(s) && AttacherOk(s) && Guard(s, step)
    requires !step.Publish? && !step.PublisherSends?
    ensures PublishersOk(Next(s, step))
  {
    var s' := Next(s, step);
    forall a | a in s'.attachments ensures NothingLiveAdded(s, s', a) {
      OtherStepAddsNothingLive(s, step, a);
    }
    OtherStepKeepsTargets(s, step);
    forall p | p in s'.publishers ensures PublisherOk(s', s'.publishers[p]) {
      PublisherFrame(s, s', s.publishers[p]);
    }
  }

  ghost predicate NothingLiveAdded(s: State, s': State, a: nat)
    requires a in s'.attachments
  {
    LiveIn(s'.attachments[a].log) == if a in s.attachments then LiveIn(s.attachments[a].log) else []
  }

  /** What a publisher past its critical section depends on. */
  ghost predicate TargetsKept(s: State, s': State) {
    && s'.core.published == s.core.published
    && (forall a :: a in s.installed ==> a in s'.installed && s'.installed[a] == s.installed[a])
    && forall p :: p in s'.publishers ==> p in s.publishers && s'.publishers[p] == s.publishers[p]
  }

  lemma AttacherKeepsTargets(s: State, step: Step)
    requires Shape(s) && AttacherOk(s) && Guard(s, step) && ByAttacher(step)
    ensures TargetsKept(s, Next(s, step))
  {
  }

  lemma OthersKeepTargets(s: State, step: Step)
    requires Guard(s, step) && !ByAttacher(step) && !step.Publish? && !step.PublisherSends?
    ensures TargetsKept(s, Next(s, step))
  {
  }

  lemma OtherStepKeepsTargets(s: State, step: Step)
    requires Shape(s) && AttacherOk(s) && Guard(s, step)
    requires !step.Publish? && !step.PublisherSends?
    ensures TargetsKept(s, Next(s, step))
  {
    if ByAttacher(step) {
      AttacherKeepsTargets(s, step);
    } else {
      OthersKeepTargets(s, step);
    }
  }

  lemma PublisherFrame(s: State, s': State, pub: Publisher)
    requires TargetsKept(s, s') && PublisherOk(s, pub)
    requires forall a :: a in s'.attachments ==> NothingLiveAdded(s, s', a)
    ensures PublisherOk(s', pub)
  {
  }

  lemma OtherStepAddsNothingLive(s: State, step: Step, a: nat)
    requires Guard(s, step) && a in Next(s, step).attachments
    requires !step.Publish? && !step.PublisherSends?
    ensures NothingLiveAdded(s, Next(s, step), a)
  {
    if a in s.attachments {
      Enqueue(s.attachments[a].log, Control);
      if step.AttachReplay? {
        Enqueue(s.attachments[a].log, Replayed(s.attacher.frames[0]));
      }
    }
  }

  // One attachment at a time.

  lemma PublishKeepsAttachment(published: seq<Payload>, payload: Payload, replayed: seq<Frame>, live: seq<Frame>, snaps: seq<nat>,
                               stage: Stage, joined: Option<nat>)
    requires AttachmentOk(published, replayed, live, snaps, stage, joined)
    ensures AttachmentOk(published + [payload], replayed, live, snaps, stage, joined)
  {
    ReplayOfStable(published, published + [payload], snaps);
  }

  lemma LiveKeepsAttachment(published: seq<Payload>, f: Frame, replayed: seq<Frame>, live: seq<Frame>, snaps: seq<nat>,
                            stage: Stage, n: nat)
    requires AttachmentOk(published, replayed, live, snaps, stage, Some(n))
    requires Genuine(published, f) && f.number > n && f !in live
    ensures AttachmentOk(published, replayed, live + [f], snaps, stage, Some(n))
  {
    forall i | 0 <= i < |live| ensures live[i].number != f.number {
      assert live[i] in live;
    }
    forall g | g in live + [f] ensures Genuine(published, g) && g.number > n {
      assert g in live || g == f;
    }
  }

  lemma ReplayKeepsAttachment(published: seq<Payload>, replayed: seq<Frame>, snaps: seq<nat>, frames: seq<Frame>)
    requires frames != [] && AttachmentOk(published, replayed, [], snaps, Looping(frames), None)
    ensures AttachmentOk(published, replayed + [frames[0]], [], snaps, Looping(frames[1..]), None)
  {
    MoveOne(replayed, frames);
  }

  lemma MoveOne(done: seq<Frame>, rest: seq<Frame>)
    requires rest != []
    ensures done + [rest[0]] + rest[1..] == done + rest
  {
  }

  /** Giving up in the middle of a replay leaves a prefix of it. */
  lemma GivingUpKeepsAttachment(published: seq<Payload>, replayed: seq<Frame>, snaps: seq<nat>, stage: Stage)
    requires stage.Looping? && AttachmentOk(published, replayed, [], snaps, stage, None)
    ensures AttachmentOk(published, replayed, [], snaps, Abandoned, None)
  {
  }

  lemma LookingKeepsAttachment(published: seq<Payload>, replayed: seq<Frame>, snaps: seq<nat>)
    requires AttachmentOk(published, replayed, [], snaps, Looping([]), None)
    ensures var frames := SnapshotAfter(published, Last(snaps));
            AttachmentOk(published, replayed, [], snaps + [|published|], if frames == [] then Settled else Looping(frames), None)
  {
    SnapshotExtendsReplay(published, snaps);
    assert replayed + [] == replayed;
  }

  /** An empty snapshot means nothing was published since the last one; otherwise the snapshot count goes up. */
  lemma SnapshotExtendsReplay(published: seq<Payload>, snaps: seq<nat>)
    requires SnapsWithin(published, snaps) && Strict(snaps, |snaps|)
    ensures var snaps' := snaps + [|published|];
            var frames := SnapshotAfter(published, Last(snaps));
            && SnapsOk(published, snaps', frames == [])
            && ReplayOf(published, snaps') == ReplayOf(published, snaps) + frames
  {
    var snaps' := snaps + [|published|];
    assert snaps'[..|snaps|] == snaps && published[..|published|] == published;
    assert forall k :: 0 <= k <= |snaps| ==> snaps'[..k] == snaps[..k];
  }

  // Every step keeps every attachment sound.

  /** The attachment a step works on, if it changes more than flags. */
  predicate Touches(s: State, step: Step, a: nat)
    requires Guard(s, step)
  {
    match step
    case PublisherSends(p, ok) => ok && s.publishers[p].target == a
    case AttachGreet(ok) => ok && s.attacher.a == a
    case AttachReplay(ok) => ok && s.attacher.a == a
    case AttachSnapshot => s.attacher.a == a
    case AttachInstall => s.attacher.a == a
    case AttachCreate(b) => a == b
    case NotifyClose(b, ok) => ok && a == b
    case _ => false
  }

  /** What soundness of an attachment depends on. */
  ghost predicate SameData(s: State, s': State, a: nat) {
    && a in s.attachments && a in s'.attachments && a in s.snaps && a in s'.snaps
    && s'.core.published == s.core.published && s'.attachments[a].log == s.attachments[a].log
    && s'.snaps[a] == s.snaps[a] && Joined(s', a) == Joined(s, a)
  }

  ghost predicate SameStage(s: State, s': State, a: nat) {
    StageOf(s', a) == StageOf(s, a) || (StageOf(s, a).Looping? && StageOf(s', a).Abandoned? && a !in s.installed)
  }

  lemma SameKeepsSound(s: State, s': State, a: nat)
    requires Shape(s) && Shape(s') && SameData(s, s', a) && SameStage(s, s', a) && Sound(s, a)
    ensures Sound(s', a)
  {
    if StageOf(s', a) != StageOf(s, a) {
      GivingUpKeepsAttachment(s.core.published, ReplayedIn(s.attachments[a].log), s.snaps[a], StageOf(s, a));
    }
  }

  lemma UntouchedBySender(s: State, step: Step, a: nat)
    requires Shape(s) && Guard(s, step) && (step.AttachReplay? || step.AttachGreet? || step.AttachSnapshot?)
    requires a in s.attachments && !Touches(s, step, a)
    ensures SameData(s, Next(s, step), a)
  {
  }

  lemma UntouchedByMover(s: State, step: Step, a: nat)
    requires Shape(s) && Guard(s, step) && ByAttacher(step) && !step.AttachReplay? && !step.AttachGreet? && !step.AttachSnapshot?
    requires a in s.attachments && !Touches(s, step, a)
    ensures SameData(s, Next(s, step), a)
  {
  }

  lemma UntouchedByAttacher(s: State, step: Step, a: nat)
    requires Shape(s) && Guard(s, step) && ByAttacher(step)
    requires a in s.attachments && !Touches(s, step, a)
    ensures SameData(s, Next(s, step), a)
  {
    if step.AttachReplay? || step.AttachGreet? || step.AttachSnapshot? {
      UntouchedBySender(s, step, a);
    } else {
      UntouchedByMover(s, step, a);
    }
  }

  /** Where the attacher gives up or goes on to another attachment. */
  lemma SenderKeepsStage(s: State, step: Step, a: nat)
    requires Shape(s) && AttacherOk(s) && Guard(s, step) && (step.AttachReplay? || step.AttachGreet? || step.AttachSnapshot?)
    requires a in s.attachments && !Touches(s, step, a)
    ensures SameStage(s, Next(s, step), a)
  {
  }

  lemma MoverKeepsStage(s: State, step: Step, a: nat)
    requires Shape(s) && AttacherOk(s) && Guard(s, step) && ByAttacher(step)
    requires !step.AttachReplay? && !step.AttachGreet? && !step.AttachSnapshot?
    requires a in s.attachments && !Touches(s, step, a)
    ensures SameStage(s, Next(s, step), a)
  {
  }

  lemma AttacherKeepsStage(s: State, step: Step, a: nat)
    requires Shape(s) && AttacherOk(s) && Guard(s, step) && ByAttacher(step)
    requires a in s.attachments && !Touches(s, step, a)
    ensures SameStage(s, Next(s, step), a)
  {
    if step.AttachReplay? || step.AttachGreet? || step.AttachSnapshot? {
      SenderKeepsStage(s, step, a);
    } else {
      MoverKeepsStage(s, step, a);
    }
  }

  lemma UntouchedByOthers(s: State, step: Step, a: nat)
    requires Shape(s) && Guard(s, step) && !ByAttacher(step) && !step.Publish?
    requires a in s.attachments && !Touches(s, step, a)
    ensures SameData(s, Next(s, step), a) && SameStage(s, Next(s, step), a)
  {
  }

  lemma LiveSendKeepsSound(s: State, s': State, p: nat, a: nat)
    requires Shape(s) && Guard(s, PublisherSends(p, true)) && s' == Next(s, PublisherSends(p, true)) && Shape(s')
    requires a == s.publishers[p].target && PublisherOk(s, s.publishers[p]) && Sound(s, a)
    ensures Sound(s', a)
  {
    var log, f := s.attachments[a].log, s.publishers[p].frame;
    Enqueue(log, Live(f, p));
    LiveKeepsAttachment(s.core.published, f, ReplayedIn(log), LiveIn(log), s.snaps[a], StageOf(s, a), s.installed[a]);
  }

  lemma ReplaySendKeepsSound(s: State, s': State, a: nat)
    requires Shape(s) && AttacherOk(s) && Guard(s, AttachReplay(true)) && s' == Next(s, AttachReplay(true)) && Shape(s')
    requires a == s.attacher.a && Sound(s, a)
    ensures Sound(s', a)
  {
    var log, frames := s.attachments[a].log, s.attacher.frames;
    assert StageOf(s, a) == Looping(frames) && Joined(s, a) == None && LiveIn(log) == [];
    assert StageOf(s', a) == Looping(frames[1..]) && Joined(s', a) == None;
    Enqueue(log, Replayed(frames[0]));
    ReplayKeepsAttachment(s.core.published, ReplayedIn(log), s.snaps[a], frames);
  }

  lemma ControlKeepsSound(s: State, s': State, a: nat)
    requires Shape(s) && Shape(s') && a in s.attachments && a in s'.attachments && Sound(s, a)
    requires s'.core.published == s.core.published && s'.attachments[a].log == s.attachments[a].log + [Control]
    requires s'.snaps[a] == s.snaps[a] && Joined(s', a) == Joined(s, a) && StageOf(s', a) == StageOf(s, a)
    ensures Sound(s', a)
  {
    Enqueue(s.attachments[a].log, Control);
  }

  lemma SnapshotKeepsSound(s: State, s': State, a: nat)
    requires Shape(s) && AttacherOk(s) && Guard(s, AttachSnapshot) && s' == Next(s, AttachSnapshot) && Shape(s')
    requires a == s.attacher.a && Sound(s, a)
    ensures Sound(s', a)
  {
    var log := s.attachments[a].log;
    assert StageOf(s, a) == Looping([]) && Joined(s, a) == None && LiveIn(log) == [];
    var frames := SnapshotAfter(s.core.published, Last(s.snaps[a]));
    assert StageOf(s', a) == (if frames == [] then Settled else Looping(frames)) && Joined(s', a) == None;
    assert s'.snaps[a] == s.snaps[a] + [|s.core.published|] && s'.attachments[a].log == log;
    LookingKeepsAttachment(s.core.published, ReplayedIn(log), s.snaps[a]);
  }

  lemma InstallKeepsSound(s: State, s': State, a: nat)
    requires Shape(s) && AttacherOk(s) && Guard(s, AttachInstall) && s' == Next(s, AttachInstall) && Shape(s')
    requires a == s.attacher.a && Sound(s, a)
    ensures Sound(s', a)
  {
    assert StageOf(s, a) == Settled && StageOf(s', a) == Settled && LiveIn(s.attachments[a].log) == [];
  }

  lemma CreateKeepsSound(s: State, s': State, a: nat)
    requires Shape(s) && Guard(s, AttachCreate(a)) && s' == Next(s, AttachCreate(a)) && Shape(s')
    ensures a in s'.attachments && Sound(s', a)
  {
    assert ReplayOf(s'.core.published, []) == [];
  }

  lemma GreetKeepsSound(s: State, s': State, a: nat)
    requires Shape(s) && AttacherOk(s) && Guard(s, AttachGreet(true)) && s' == Next(s, AttachGreet(true)) && Shape(s')
    requires a == s.attacher.a && Sound(s, a)
    ensures Sound(s', a)
  {
    assert StageOf(s, a) == Looping([]) && StageOf(s', a) == Looping([]) && Joined(s, a) == Joined(s', a) == None;
    ControlKeepsSound(s, s', a);
  }

  lemma AttacherKeepsSound(s: State, step: Step, a: nat)
    requires Shape(s) && AttacherOk(s) && Guard(s, step) && Touches(s, step, a) && ByAttacher(step) && Shape(Next(s, step))
    requires a in s.attachments ==> Sound(s, a)
    ensures a in Next(s, step).attachments && Sound(Next(s, step), a)
  {
    var s' := Next(s, step);
    match step
    case AttachGreet(_) => GreetKeepsSound(s, s', a);
    case AttachReplay(_) => ReplaySendKeepsSound(s, s', a);
    case AttachSnapshot => SnapshotKeepsSound(s, s', a);
    case AttachInstall => InstallKeepsSound(s, s', a);
    case AttachCreate(_) => CreateKeepsSound(s, s', a);
  }

  lemma SendersKeepSound(s: State, step: Step, a: nat)
    requires Shape(s) && Guard(s, step) && Touches(s, step, a) && !ByAttacher(step) && Shape(Next(s, step))
    requires a in s.attachments ==> Sound(s, a)
    requires step.PublisherSends? ==> PublisherOk(s, s.publishers[step.p])
    ensures a in Next(s, step).attachments && Sound(Next(s, step), a)
  {
    match step
    case PublisherSends(p, _) => LiveSendKeepsSound(s, Next(s, step), p, a);
    case NotifyClose(_, _) => ControlKeepsSound(s, Next(s, step), a);
  }

  lemma StepKeepsAttachments(s: State, step: Step)
    requires Inv(s) && Guard(s, step) && Shape(Next(s, step))
    ensures AttachmentsOk(Next(s, step))
  {
    var s' := Next(s, step);
    forall a | a in s'.attachments ensures Sound(s', a) {
      StepKeepsSound(s, step, a);
    }
  }

  /** A publication changes the history and the publishers, and nothing else. */
  lemma PublishEffect(s: State, p: nat, payload: Payload)
    requires Guard(s, Publish(p, payload))
    ensures var s' := Next(s, Publish(p, payload));
            && s' == s.(core := s'.core, publishers := s'.publishers)
            && s'.core.published == if s.core.closed then s.core.published else s.core.published + [payload]
  {
  }

  lemma LongerHistoryKeepsSound(s: State, s': State, payload: Payload, a: nat)
    requires Shape(s) && Shape(s') && a in s.attachments && Sound(s, a)
    requires s' == s.(core := s'.core, publishers := s'.publishers)
    requires s'.core.published == if s.core.closed then s.core.published else s.core.published + [payload]
    ensures Sound(s', a)
  {
    assert StageOf(s', a) == StageOf(s, a) && Joined(s', a) == Joined(s, a);
    if !s.core.closed {
      var log := s.attachments[a].log;
      PublishKeepsAttachment(s.core.published, payload, ReplayedIn(log), LiveIn(log), s.snaps[a], StageOf(s, a), Joined(s, a));
    }
  }

  lemma PublishKeepsSound(s: State, p: nat, payload: Payload, a: nat)
    requires Shape(s) && Guard(s, Publish(p, payload)) && Shape(Next(s, Publish(p, payload)))
    requires a in s.attachments && Sound(s, a)
    ensures Sound(Next(s, Publish(p, payload)), a)
  {
    PublishEffect(s, p, payload);
    LongerHistoryKeepsSound(s, Next(s, Publish(p, payload)), payload, a);
  }

  lemma UntouchedStaysSound(s: State, step: Step, a: nat)
    requires Shape(s) && AttacherOk(s) && Guard(s, step) && !step.Publish? && !Touches(s, step, a) && Shape(Next(s, step))
    requires a in s.attachments && Sound(s, a)
    ensures Sound(Next(s, step), a)
  {
    if ByAttacher(step) {
      UntouchedByAttacher(s, step, a);
      AttacherKeepsStage(s, step, a);
    } else {
      UntouchedByOthers(s, step, a);
    }
    SameKeepsSound(s, Next(s, step), a);
  }

  lemma NoStranger(s: State, step: Step, a: nat)
    requires Guard(s, step) && a in Next(s, step).attachments && !Touches(s, step, a)
    ensures a in s.attachments
  {
  }

  lemma StepKeepsSound(s: State, step: Step, a: nat)
    requires Shape(s) && AttacherOk(s) && PublishersOk(s) && Guard(s, step) && Shape(Next(s, step))
    requires a in Next(s, step).attachments
    requires a in s.attachments ==> Sound(s, a)
    ensures Sound(Next(s, step), a)
  {
    if Touches(s, step, a) {
      if ByAttacher(step) {
        AttacherKeepsSound(s, step, a);
      } else {
        SendersKeepSound(s, step, a);
      }
    } else {
      NoStranger(s, step, a);
      if step.Publish? {
        PublishKeepsSound(s, step.p, step.payload, a);
      } else {
        UntouchedStaysSound(s, step, a);
      }
    }
  }

  lemma AttachmentsAreOlder(s: State)
    requires Shape(s) && AttachmentsOk(s)
    ensures forall a :: a in s.attachments ==> Older(s, a)
  {
    forall a | a in s.attachments ensures Older(s, a) {
      assert Sound(s, a);
    }
  }

  lemma StepKeepsPublishers(s: State, step: Step)
    requires Inv(s) && Guard(s, step)
    ensures PublishersOk(Next(s, step))
  {
    match step
    case Publish(p, payload) =>
      AttachmentsAreOlder(s);
      PublishKeepsPublishers(s, p, payload);
    case PublisherSends(p, ok) => LiveSendKeepsPublishers(s, p, ok);
    case _ => OtherStepKeepsPublishers(s, step);
  }

  lemma StepKeepsInv(s: State, step: Step)
    requires Inv(s) && Guard(s, step)
    ensures Inv(Next(s, step))
  {
    StepKeepsShape(s, step);
    StepKeepsAttacher(s, step);
    StepKeepsCore(s, step);
    StepKeepsPublishers(s, step);
    StepKeepsAttachments(s, step);
  }

  lemma {:induction false} RunsKeepInv(states: seq<State>, steps: seq<Step>, i: nat)
    requires IsRun(states, steps) && i < |states|
    ensures Inv(states[i])
  {
    if i > 0 {
      RunsKeepInv(states, steps, i - 1);
      StepKeepsInv(states[i-1], steps[i-1]);
    }
  }
}
