/** Building runs of a terminal session step by step. */
module TerminalRuns {
  import opened Types
  import opened TerminalHistory
  import opened TerminalReplay

  lemma Then(states: seq<State>, steps: seq<Step>, step: Step, s': State) returns (more: seq<State>, moves: seq<Step>)
    requires IsRun(states, steps) && Guard(Final(states), step) && s' == Next(Final(states), step)
    ensures IsRun(more, moves) && Final(more) == s'
  {
    more, moves := states + [s'], steps + [step];
    forall i | 0 <= i < |moves| ensures Guard(more[i], moves[i]) && more[i+1] == Next(more[i], moves[i]) {
      if i < |steps| {
        assert more[i] == states[i] && more[i+1] == states[i+1] && moves[i] == steps[i];
      } else {
        assert more[i] == Final(states) && more[i+1] == s' && moves[i] == step;
      }
    }
  }

  /** A session nobody ever attached to, with what it has published. */
  function Unwatched(published: seq<Payload>, attacher: Attacher): State {
    State(Core(published, false, None, false), map[], attacher, map[], map[], {}, map[], false)
  }

  /** The first attach of such a session. */
  function Attending(published: seq<Payload>, attacher: Attacher, log: seq<Entry>, snaps: seq<nat>): State {
    State(Core(published, false, None, false), map[], attacher, map[0 := Attachment(log, 0, false)], map[], {}, map[0 := snaps], false)
  }

  lemma {:induction false} PublishedUnwatched(published: seq<Payload>) returns (states: seq<State>, steps: seq<Step>)
    ensures IsRun(states, steps) && Final(states) == Unwatched(published, Free)
  {
    if published == [] {
      states, steps := [Unwatched([], Free)], [];
    } else {
      var n := |published| - 1;
      states, steps := PublishedUnwatched(published[..n]);
      assert published[..n] + [published[n]] == published;
      states, steps := Then(states, steps, Publish(0, published[n]), Unwatched(published, Free));
    }
  }

  /** The first attach, past its ready message. */
  lemma Greeted(published: seq<Payload>) returns (states: seq<State>, steps: seq<Step>)
    ensures IsRun(states, steps) && Final(states) == Attending(published, Looking(0), [Control], [])
  {
    states, steps := PublishedUnwatched(published);
    states, steps := Then(states, steps, AttachEnter, Unwatched(published, Entered));
    states, steps := Then(states, steps, AttachCheckClosed, Unwatched(published, Admitted));
    states, steps := Then(states, steps, AttachStopTimer, Unwatched(published, TimerOff));
    states, steps := Then(states, steps, AttachCreate(0), Attending(published, Greeting(0), [], []));
    GreetLeads(published);
    states, steps := Then(states, steps, AttachGreet(true), Attending(published, Looking(0), [Control], []));
  }

  lemma GreetLeads(published: seq<Payload>)
    ensures Guard(Attending(published, Greeting(0), [], []), AttachGreet(true))
    ensures Next(Attending(published, Greeting(0), [], []), AttachGreet(true)) == Attending(published, Looking(0), [Control], [])
  {
    assert [] + [Control] == [Control];
  }

  lemma SnapshotLeads(published: seq<Payload>)
    ensures var frames := SnapshotAfter(published, 0);
            Next(Attending(published, Looking(0), [Control], []), AttachSnapshot) ==
              Attending(published, if frames == [] then Installing(0) else Replaying(0, frames), [Control], [|published|])
  {
    assert [] + [|published|] == [|published|];
  }

  /** The first attach of a silent session, up to the end of its replay loop. */
  lemma LookedAtNothing() returns (states: seq<State>, steps: seq<Step>)
    ensures IsRun(states, steps) && Final(states) == Attending([], Installing(0), [Control], [0])
  {
    states, steps := Greeted([]);
    SnapshotLeads([]);
    states, steps := Then(states, steps, AttachSnapshot, Attending([], Installing(0), [Control], [0]));
  }
}
