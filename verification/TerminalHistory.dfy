/**
  The history of a terminal session: a ring of 256 frames with consecutive sequence numbers.
  The class keeps the ring, the pointer and the length; the functions say what they stand for.
*/
module TerminalHistory {
  import opened Types

  const HISTORY_FRAMES := 256

  type Payload = seq<bv8>

  datatype Frame = Frame(number: nat, payload: Payload)

  /** The n-th frame ever published, counting from 1. */
  function FrameAt(published: seq<Payload>, n: nat): Frame
    requires 1 <= n <= |published|
  {
    Frame(n, published[n - 1])
  }

  /** The number of the last frame that has fallen out of the history when `n` were published. */
  function EvictedAt(n: nat): nat {
    if n > HISTORY_FRAMES then n - HISTORY_FRAMES else 0
  }

  function Evicted(published: seq<Payload>): nat {
    EvictedAt(|published|)
  }

  /** The frames numbered after+1 up to the last. */
  function FramesAfter(published: seq<Payload>, after: nat): (frames: seq<Frame>)
    requires after <= |published|
    ensures |frames| == |published| - after
    ensures forall i :: 0 <= i < |frames| ==> frames[i].number == after + 1 + i && frames[i].payload == published[after + i]
  {
    seq(|published| - after, i requires 0 <= i < |published| - after => Frame(after + 1 + i, published[after + i]))
  }

  function Max(a: nat, b: nat): nat {
    if a > b then a else b
  }

  /** What a snapshot after sequence number `after` returns: the retained frames that are newer. */
  function SnapshotAfter(published: seq<Payload>, after: nat): seq<Frame> {
    if after >= |published| then [] else FramesAfter(published, Max(after, Evicted(published)))
  }

  /** The part of that found among the frames up to `last`. */
  function NewerUpTo(published: seq<Payload>, evicted: nat, last: nat, after: nat): seq<Frame>
    requires evicted <= last <= |published|
  {
    if after >= last then [] else FramesAfter(published[..last], Max(after, evicted))
  }

  lemma NewerUpToGrows(published: seq<Payload>, evicted: nat, last: nat, after: nat)
    requires evicted <= last < |published|
    ensures NewerUpTo(published, evicted, last + 1, after) ==
            NewerUpTo(published, evicted, last, after) + if last + 1 > after then [FrameAt(published, last + 1)] else []
  {
    if after <= last {
      var m := Max(after, evicted);
      var more, fewer := FramesAfter(published[..last + 1], m), FramesAfter(published[..last], m) + [FrameAt(published, last + 1)];
      assert |more| == |fewer|;
      forall i | 0 <= i < |more| ensures more[i] == fewer[i] {
        assert more[i] == FrameAt(published[..last + 1], m + 1 + i);
      }
    }
  }

  /** A session's fields that only change under its mutex. `attachment` names the installed attachment. */
  datatype Core = Core(published: seq<Payload>, closed: bool, attachment: Option<nat>, timer: bool)

  // The critical sections, as functions of those fields.

  function Published(core: Core, payload: Payload): Core {
    if core.closed then core else core.(published := core.published + [payload])
  }

  function Installed(core: Core, a: nat): Core {
    core.(attachment := Some(a))
  }

  function Removed(core: Core, a: nat): Core {
    if core.attachment == Some(a) then core.(attachment := None) else core
  }

  /** Detaching arms the idle timer, but only for the current attachment and only on an open session. */
  function Cleared(core: Core, a: nat): Core {
    if core.attachment == Some(a) then core.(attachment := None, timer := core.timer || !core.closed) else core
  }

  function TimerStopped(core: Core): Core {
    core.(timer := false)
  }

  function Closed(core: Core): Core {
    core.(closed := true, attachment := None, timer := false)
  }

  /** The ring index of the i-th oldest of `len` frames, when the next frame goes to `position`. */
  function Slot(position: nat, len: nat, i: nat): (slot: nat)
    requires len <= HISTORY_FRAMES
    ensures slot < HISTORY_FRAMES
  {
    (position + (HISTORY_FRAMES - len) + i) % HISTORY_FRAMES
  }

  /** Appending moves the pointer: the frames kept stay where they are, the new one sits at the old pointer. */
  ghost predicate SlotMoves(position: nat, len: nat, i: nat)
    requires len <= HISTORY_FRAMES
  {
    var position' := (position + 1) % HISTORY_FRAMES;
    if len < HISTORY_FRAMES then
      (i < len ==> Slot(position', len + 1, i) == Slot(position, len, i) != position)
      && Slot(position', len + 1, len) == position
    else
      (i < len - 1 ==> Slot(position', len, i) == Slot(position, len, i + 1) != position)
      && Slot(position', len, len - 1) == position
  }

  lemma SlotAfterAppend(position: nat, len: nat, i: nat)
    requires position < HISTORY_FRAMES && len <= HISTORY_FRAMES
    ensures SlotMoves(position, len, i)
  {
  }

  lemma SlotSuccessor(position: nat, len: nat, i: nat)
    requires len <= HISTORY_FRAMES
    ensures (Slot(position, len, i) + 1) % HISTORY_FRAMES == Slot(position, len, i + 1)
  {
  }

  /**
    The ring holds exactly the last min(256, n) frames, oldest first from the pointer back, with consecutive
    numbers ending at the last one published.
  */
  ghost predicate Represents(ring: seq<Option<Frame>>, position: nat, len: nat, published: seq<Payload>) {
    && |ring| == HISTORY_FRAMES && position < HISTORY_FRAMES
    && len == |published| - Evicted(published)
    && forall i :: 0 <= i < len ==> ring[Slot(position, len, i)] == Some(FrameAt(published, Evicted(published) + 1 + i))
  }

  /** Writing at the pointer and moving it on keeps the ring the history of one more frame. */
  lemma AppendKeepsRing(ring: seq<Option<Frame>>, position: nat, len: nat, published: seq<Payload>, payload: Payload)
    requires Represents(ring, position, len, published)
    ensures Represents(ring[position := Some(Frame(|published| + 1, payload))], (position + 1) % HISTORY_FRAMES,
                       if len < HISTORY_FRAMES then len + 1 else len, published + [payload])
  {
    var ring' := ring[position := Some(Frame(|published| + 1, payload))];
    var position', len' := (position + 1) % HISTORY_FRAMES, if len < HISTORY_FRAMES then len + 1 else len;
    var published' := published + [payload];
    var shift := if len < HISTORY_FRAMES then 0 else 1;
    forall i | 0 <= i < len' ensures ring'[Slot(position', len', i)] == Some(FrameAt(published', Evicted(published') + 1 + i)) {
      SlotAfterAppend(position, len, i);
      if i + shift < len {
        assert ring'[Slot(position', len', i)] == ring[Slot(position, len, i + shift)];
      }
    }
  }

  lemma EmptyRing(ring: seq<Option<Frame>>)
    requires |ring| == HISTORY_FRAMES
    ensures Represents(ring, 0, 0, [])
  {
  }

  class TerminalSession {
    var history: array?<Option<Frame>>
    var position: nat
    var historyLen: nat
    var nextSeq: nat
    var closed: bool
    var attachment: Option<nat>
    var timer: bool
    ghost var published: seq<Payload>

    constructor ()
      ensures Valid() && Value() == Core([], false, None, false)
    {
      history, position, historyLen, nextSeq := null, 0, 0, 0;
      closed, attachment, timer, published := false, None, false, [];
    }

    /** The pointer and the length describe the ring; a session without a ring has no frames. */
    ghost predicate RingHolds()
      reads this, history
    {
      if history == null then published == [] && historyLen == 0 && position == 0
      else history.Length == HISTORY_FRAMES && Represents(history[..], position, historyLen, published)
    }

    ghost predicate Valid()
      reads this, history
    {
      RingHolds() && nextSeq == |published|
    }

    ghost function Value(): Core
      reads this
    {
      Core(published, closed, attachment, timer)
    }

    /** The locked part of publishing; the frame and the attachment to send it to, if any. */
    method Publish(payload: Payload) returns (sent: Option<Frame>, target: Option<nat>)
      requires Valid()
      modifies this, history
      ensures Valid() && (history == old(history) || fresh(history))
      ensures Value() == Published(old(Value()), payload)
      ensures published == if old(closed) then old(published) else old(published) + [payload]
      ensures closed == old(closed) && attachment == old(attachment) && timer == old(timer)
      ensures sent == if old(closed) then None else Some(FrameAt(published, |published|))
      ensures target == if old(closed) then None else attachment
    {
      if closed {
        return None, None;
      }
      nextSeq := nextSeq + 1;
      var frame := Frame(nextSeq, payload);
      Append(frame);
      return Some(frame), attachment;
    }

    method Append(frame: Frame)
      requires RingHolds() && frame.number == |published| + 1
      modifies this`history, this`position, this`historyLen, this`published, history
      ensures RingHolds() && published == old(published) + [frame.payload]
      ensures history == old(history) || fresh(history)
    {
      if history == null {
        history := new Option<Frame>[HISTORY_FRAMES](_ => None);
        EmptyRing(history[..]);
      }
      AppendKeepsRing(history[..], position, historyLen, published, frame.payload);
      ghost var ring := history[..];
      history[position] := Some(frame);
      assert history[..] == ring[position := Some(frame)];
      position := (position + 1) % HISTORY_FRAMES;
      if historyLen < HISTORY_FRAMES {
        historyLen := historyLen + 1;
      }
      published := published + [frame.payload];
    }

    /** Walks the ring from its oldest frame and keeps the newer ones. */
    method SnapshotFramesAfter(afterSeq: nat) returns (frames: seq<Frame>, latest: nat)
      requires Valid()
      ensures frames == SnapshotAfter(published, afterSeq)
      ensures latest == |published|
    {
      latest := nextSeq;
      frames := [];
      if historyLen == 0 {
        return;
      }
      ghost var evicted := Evicted(published);
      var current := (position + (HISTORY_FRAMES - historyLen)) % HISTORY_FRAMES;
      for i := 0 to historyLen
        invariant current == Slot(position, historyLen, i)
        invariant frames == NewerUpTo(published, evicted, evicted + i, afterSeq)
      {
        assert history[..][current] == Some(FrameAt(published, evicted + 1 + i));
        match history[current] {
          case Some(frame) =>
            if frame.number > afterSeq {
              frames := frames + [frame];
            }
          case None =>
        }
        NewerUpToGrows(published, evicted, evicted + i, afterSeq);
        SlotSuccessor(position, historyLen, i);
        current := (current + 1) % HISTORY_FRAMES;
      }
      assert published[..evicted + historyLen] == published;
    }

    method SetAttachment(a: nat)
      modifies this`attachment
      ensures Value() == Installed(old(Value()), a) && attachment == Some(a)
    {
      attachment := Some(a);
    }

    /** The locked part of detaching: only the current attachment is cleared, and that arms the idle timer. */
    method ClearAttachment(a: nat)
      modifies this`attachment, this`timer
      ensures Value() == Cleared(old(Value()), a)
      ensures old(attachment) == Some(a) ==> attachment == None && (!closed ==> timer) && (closed ==> timer == old(timer))
      ensures old(attachment) != Some(a) ==> attachment == old(attachment) && timer == old(timer)
    {
      if attachment == Some(a) {
        attachment := None;
        if !closed {
          timer := true;
        }
      }
    }

    method RemoveAttachment(a: nat)
      modifies this`attachment
      ensures Value() == Removed(old(Value()), a)
      ensures attachment == if old(attachment) == Some(a) then None else old(attachment)
    {
      if attachment == Some(a) {
        attachment := None;
      }
    }

    method StopIdleTimer()
      modifies this`timer
      ensures Value() == TimerStopped(old(Value())) && !timer
    {
      if timer {
        timer := false;
      }
    }

    /** The locked part of closing; the attachment to notify, if any. */
    method Close() returns (notify: Option<nat>)
      modifies this`closed, this`attachment, this`timer
      ensures Value() == Closed(old(Value())) && notify == old(attachment)
      ensures closed && attachment == None && !timer
    {
      closed := true;
      notify := attachment;
      attachment := None;
      if timer {
        timer := false;
      }
    }
  }
}
