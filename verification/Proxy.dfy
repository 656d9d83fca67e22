/**
  The proxy session manager: sessions that join a client's and a worker's connection, one method per step.
  `Session` is a session as a value; the classes update it in place.
*/
module Proxy {
  import opened Types

  const PENDING_SESSION_MAX_AGE := 60

  type SessionId = string
  type Conn = nat

  datatype Phase = Pending | Active | Closed

  datatype Session = Session(
    vmId: string,
    worker: WorkerId,
    createdAt: int,
    phase: Phase,
    client: Option<Conn>,
    workerSide: Option<Conn>,
    readyClosed: bool,
    doneClosed: bool
  )

  type View = map<SessionId, Session>

  /** A session in the table: active exactly when both sides are connected, exactly when `ready` is closed; not ended. */
  predicate Open(s: Session) {
    && s.phase != Closed && !s.doneClosed
    && (s.phase == Active <==> s.client.Some? && s.workerSide.Some?)
    && (s.readyClosed <==> s.client.Some? && s.workerSide.Some?)
  }

  function Created(vmId: string, worker: WorkerId, now: int): Session {
    Session(vmId, worker, now, Pending, None, None, false, false)
  }

  /** Storing a connection; an unknown role stores nothing. */
  function Connected(s: Session, role: string, conn: Conn): Session {
    var s := if role == "client" then s.(client := Some(conn)) else if role == "worker" then s.(workerSide := Some(conn)) else s;
    if s.client.Some? && s.workerSide.Some? then s.(phase := Active, readyClosed := true) else s
  }

  /** Connecting keeps a session open in the table, and makes it active exactly when the other side is there. */
  lemma ConnectedIsOpen(s: Session, role: string, conn: Conn)
    requires Open(s)
    ensures Open(Connected(s, role, conn))
    ensures Connected(s, role, conn).phase == Active <==>
      s.phase == Active || (role == "client" && s.workerSide.Some?) || (role == "worker" && s.client.Some?)
  {
  }

  function Ended(s: Session): Session {
    s.(phase := Closed, doneClosed := true)
  }

  function WorkerMatches(view: View, worker: WorkerId): set<SessionId> {
    set id | id in view && view[id].worker == worker
  }

  function VMMatches(view: View, vmId: string): set<SessionId> {
    set id | id in view && view[id].vmId == vmId
  }

  function Stale(view: View, now: int): set<SessionId> {
    set id | id in view && view[id].phase == Pending && now - view[id].createdAt > PENDING_SESSION_MAX_AGE
  }

  // The operations, as steps on the table and on what has left it.

  datatype Op =
    | OpCreate(id: SessionId, vmId: string, worker: WorkerId, now: int)
    | OpSetConn(id: SessionId, role: string, conn: Conn)
    | OpClose(id: SessionId)
    | OpCloseByWorker(worker: WorkerId)
    | OpCloseByVM(vmId: string)
    | OpReap(now: int)

  /** The table and every session that ever left it, as it was left. */
  datatype Store = Store(live: View, left: View)

  function Leave(st: Store, ids: set<SessionId>): Store {
    Store(map id | id in st.live && id !in ids :: st.live[id],
          map id | id in st.left.Keys + (st.live.Keys * ids) :: if id in st.live && id in ids then Ended(st.live[id]) else st.left[id])
  }

  function Run(st: Store, op: Op): Store {
    match op
    case OpCreate(id, vmId, worker, now) =>
      if id in st.live || id in st.left then st else st.(live := st.live[id := Created(vmId, worker, now)])
    case OpSetConn(id, role, conn) => if id in st.live then st.(live := st.live[id := Connected(st.live[id], role, conn)]) else st
    case OpClose(id) => Leave(st, {id})
    case OpCloseByWorker(worker) => Leave(st, WorkerMatches(st.live, worker))
    case OpCloseByVM(vmId) => Leave(st, VMMatches(st.live, vmId))
    case OpReap(now) => Leave(st, Stale(st.live, now))
  }

  function RunAll(st: Store, ops: seq<Op>): Store {
    if ops == [] then st else Run(RunAll(st, ops[..|ops|-1]), ops[|ops|-1])
  }

  const EMPTY: Store := Store(map[], map[])

  /** In the table: open. Left it: closed, with `done` closed. */
  ghost predicate Consistent(st: Store) {
    && st.live.Keys !! st.left.Keys
    && (forall id :: id in st.live ==> Open(st.live[id]))
    && (forall id :: id in st.left ==> st.left[id].phase == Closed && st.left[id].doneClosed)
  }

  class ProxySession {
    const id: SessionId
    const vmId: string
    const worker: WorkerId
    const createdAt: int
    var phase: Phase
    var client: Option<Conn>
    var workerSide: Option<Conn>
    var readyClosed: bool
    var doneClosed: bool

    constructor (id: SessionId, vmId: string, worker: WorkerId, now: int)
      ensures this.id == id && Value() == Created(vmId, worker, now)
    {
      this.id, this.vmId, this.worker, createdAt := id, vmId, worker, now;
      phase, client, workerSide, readyClosed, doneClosed := Pending, None, None, false, false;
    }

    function Value(): Session
      reads this
    {
      Session(vmId, worker, createdAt, phase, client, workerSide, readyClosed, doneClosed)
    }

    /** Closing the channel `ready`; closing it a second time would panic. */
    method CloseReady()
      requires !readyClosed
      modifies this`readyClosed
      ensures readyClosed
    {
      readyClosed := true;
    }

    /** Closing the channel `done`; closing it a second time would panic. */
    method CloseDone()
      requires !doneClosed
      modifies this`doneClosed
      ensures doneClosed
    {
      doneClosed := true;
    }

    method Connect(role: string, conn: Conn) returns (both: bool)
      modifies this
      ensures Value() == Connected(old(Value()), role, conn)
      ensures both <==> client.Some? && workerSide.Some?
      ensures client == if role == "client" then Some(conn) else old(client)
      ensures workerSide == if role == "worker" then Some(conn) else old(workerSide)
      ensures if both then phase == Active && readyClosed else phase == old(phase) && readyClosed == old(readyClosed)
      ensures doneClosed == old(doneClosed)
    {
      if role == "client" {
        client := Some(conn);
      } else if role == "worker" {
        workerSide := Some(conn);
      }
      if client.Some? && workerSide.Some? {
        phase := Active;
        if !readyClosed {
          CloseReady();
        }
        return true;
      }
      return false;
    }

    method End()
      modifies this
      ensures Value() == Ended(old(Value()))
      ensures phase == Closed && doneClosed && client == old(client) && workerSide == old(workerSide) && readyClosed == old(readyClosed)
    {
      phase := Closed;
      if !doneClosed {
        CloseDone();
      }
    }
  }

  class SessionManager {
    var sessions: map<SessionId, ProxySession>
    /** The sessions that have left the table, and the values of all sessions. */
    ghost var gone: set<ProxySession>
    ghost var view: Store

    constructor ()
      ensures Valid() && view == EMPTY
    {
      sessions, gone, view := map[], {}, EMPTY;
    }

    /** The view is what the sessions hold. Every method moves it by its step; `RunsStayConsistent` is about those. */
    ghost predicate Valid()
      reads this, sessions.Values, gone
    {
      && view.live.Keys == sessions.Keys && view.live.Keys !! view.left.Keys
      && (forall id :: id in sessions ==> sessions[id].id == id && sessions[id].Value() == view.live[id])
      && (forall s :: s in gone ==> s.id in view.left && s.Value() == view.left[s.id])
    }

    /** Ids are random UUIDs: a new one was never in use. */
    method Create(id: SessionId, vmId: string, worker: WorkerId, now: int) returns (s: ProxySession)
      requires Valid() && id !in sessions && id !in view.left
      modifies this`sessions, this`view
      ensures Valid() && fresh(s) && sessions == old(sessions)[id := s]
      ensures s.id == id && s.vmId == vmId && s.worker == worker && s.createdAt == now && s.phase == Pending
      ensures s.client == None && s.workerSide == None && !s.readyClosed && !s.doneClosed
      ensures view == Run(old(view), OpCreate(id, vmId, worker, now))
    {
      s := new ProxySession(id, vmId, worker, now);
      sessions := sessions[id := s];
      view := view.(live := view.live[id := s.Value()]);
    }

    /** The pending sessions of a worker, each once, in some order. */
    method GetPending(worker: WorkerId) returns (ids: seq<SessionId>)
      requires Valid()
      ensures forall id :: id in ids <==> id in view.live && view.live[id].worker == worker && view.live[id].phase == Pending
      ensures forall i, j :: 0 <= i < j < |ids| ==> ids[i] != ids[j]
    {
      ids := [];
      var todo := sessions.Keys;
      while todo != {}
        invariant todo <= sessions.Keys
        invariant forall id :: id in ids <==> id in sessions && id !in todo && sessions[id].worker == worker && sessions[id].phase == Pending
        invariant forall i, j :: 0 <= i < j < |ids| ==> ids[i] != ids[j]
        decreases todo
      {
        var id :| id in todo;
        if sessions[id].worker == worker && sessions[id].phase == Pending {
          ids := ids + [id];
        }
        todo := todo - {id};
      }
    }

    method SetConn(id: SessionId, role: string, conn: Conn) returns (both: bool)
      requires Valid()
      modifies this`view, if id in sessions then {sessions[id]} else {}
      ensures Valid() && view == Run(old(view), OpSetConn(id, role, conn))
      ensures both <==> id in view.live && view.live[id].client.Some? && view.live[id].workerSide.Some?
    {
      if id !in sessions {
        return false;
      }
      both := sessions[id].Connect(role, conn);
      view := view.(live := view.live[id := sessions[id].Value()]);
    }

    method Close(id: SessionId)
      requires Valid()
      modifies this, if id in sessions then {sessions[id]} else {}
      ensures Valid() && (forall k :: k in sessions ==> k in old(sessions) && sessions[k] == old(sessions)[k])
      ensures view == Leave(old(view), {id}) == Run(old(view), OpClose(id))
      ensures old(gone) <= gone && forall k :: k in old(sessions) && k !in sessions ==> old(sessions)[k] in gone
    {
      if id !in sessions {
        LeaveNone(view, {id});
        return;
      }
      CloseStep(view, id);
      var s := sessions[id];
      sessions := sessions - {id};
      gone := gone + {s};
      s.End();
      view := Store(view.live - {id}, view.left[id := s.Value()]);
    }

    /** Closing a batch: exactly the listed sessions leave, the rest are untouched. */
    method CloseAll(ids: set<SessionId>)
      requires Valid()
      modifies this, set id | id in ids && id in sessions :: sessions[id]
      ensures Valid() && view == Leave(old(view), ids)
      ensures old(gone) <= gone && forall k :: k in old(sessions) && k !in sessions ==> old(sessions)[k] in gone
    {
      var todo := ids;
      LeaveNone(view, ids - todo);
      while todo != {}
        invariant todo <= ids && Valid()
        invariant forall k :: k in sessions ==> k in old(sessions) && sessions[k] == old(sessions)[k]
        invariant view == Leave(old(view), ids - todo)
        invariant old(gone) <= gone && forall k :: k in old(sessions) && k !in sessions ==> old(sessions)[k] in gone
        decreases todo
      {
        var id :| id in todo;
        LeaveOneMore(old(view), ids - todo, id);
        assert ids - (todo - {id}) == (ids - todo) + {id};
        Close(id);
        todo := todo - {id};
      }
      assert ids - {} == ids;
    }

    method CloseByWorker(worker: WorkerId) returns (count: nat)
      requires Valid()
      modifies this, set id | id in sessions && sessions[id].worker == worker :: sessions[id]
      ensures Valid() && view == Run(old(view), OpCloseByWorker(worker))
      ensures old(gone) <= gone && forall k :: k in old(sessions) && k !in sessions ==> old(sessions)[k] in gone
      ensures count == |WorkerMatches(old(view).live, worker)|
      ensures forall k :: k in old(sessions) ==> (k in sessions <==> old(sessions)[k].worker != worker)
    {
      var ids := set id | id in sessions && sessions[id].worker == worker;
      assert ids == WorkerMatches(view.live, worker);
      CloseAll(ids);
      return |ids|;
    }

    method CloseByVM(vmId: string) returns (count: nat)
      requires Valid()
      modifies this, set id | id in sessions && sessions[id].vmId == vmId :: sessions[id]
      ensures Valid() && view == Run(old(view), OpCloseByVM(vmId))
      ensures old(gone) <= gone && forall k :: k in old(sessions) && k !in sessions ==> old(sessions)[k] in gone
      ensures count == |VMMatches(old(view).live, vmId)|
      ensures forall k :: k in old(sessions) ==> (k in sessions <==> old(sessions)[k].vmId != vmId)
    {
      var ids := set id | id in sessions && sessions[id].vmId == vmId;
      assert ids == VMMatches(view.live, vmId);
      CloseAll(ids);
      return |ids|;
    }

    /** Times are in seconds. */
    method Reap(now: int)
      requires Valid()
      modifies this, set id | id in sessions && sessions[id].phase == Pending :: sessions[id]
      ensures Valid() && view == Run(old(view), OpReap(now))
      ensures forall k :: k in old(sessions) ==>
        (k in sessions <==> !(old(sessions[k].phase) == Pending && now - old(sessions)[k].createdAt > 60))
      ensures old(gone) <= gone && forall k :: k in old(sessions) && k !in sessions ==> old(sessions)[k] in gone
    {
      var ids := set id | id in sessions && sessions[id].phase == Pending && now - sessions[id].createdAt > PENDING_SESSION_MAX_AGE;
      assert ids == Stale(view.live, now);
      CloseAll(ids);
    }
  }

  lemma LeaveNone(st: Store, ids: set<SessionId>)
    requires st.live.Keys !! ids
    ensures Leave(st, ids) == st
  {
    assert Leave(st, ids).live == st.live;
    assert Leave(st, ids).left == st.left;
  }

  lemma CloseStep(st: Store, id: SessionId)
    requires id in st.live
    ensures Leave(st, {id}) == Store(st.live - {id}, st.left[id := Ended(st.live[id])]) == Run(st, OpClose(id))
  {
    assert Leave(st, {id}).left == st.left[id := Ended(st.live[id])];
    assert Leave(st, {id}).live == st.live - {id};
  }

  lemma LeaveOneMore(st: Store, ids: set<SessionId>, id: SessionId)
    ensures Leave(Leave(st, ids), {id}) == Leave(st, ids + {id})
  {
    var a, b := Leave(Leave(st, ids), {id}), Leave(st, ids + {id});
    assert a.live.Keys == b.live.Keys && a.left.Keys == b.left.Keys;
    assert a.live == b.live;
    assert a.left == b.left;
  }

  // Whole runs.

  ghost predicate Older(st: Store, st': Store, id: SessionId) {
    && (id in st.left ==> id in st'.left && st'.left[id] == st.left[id])
    && (id in st.live ==> id in st'.live || id in st'.left)
    && (id in st.live && st.live[id].phase == Active && id in st'.live ==> st'.live[id].phase == Active)
    && (id in st.live && st.live[id].readyClosed ==>
          if id in st'.live then st'.live[id].readyClosed else id in st'.left && st'.left[id].readyClosed)
  }

  lemma StepAges(st: Store, op: Op, id: SessionId)
    requires Consistent(st)
    ensures Consistent(Run(st, op)) && Older(st, Run(st, op), id)
  {
  }

  /** A session never goes back: once it left it is frozen, once active it stays active until it leaves. */
  lemma {:induction false} SessionsAgeOneWay(st: Store, ops: seq<Op>, id: SessionId)
    requires Consistent(st)
    ensures Consistent(RunAll(st, ops)) && Older(st, RunAll(st, ops), id)
  {
    if ops != [] {
      SessionsAgeOneWay(st, ops[..|ops|-1], id);
      StepAges(RunAll(st, ops[..|ops|-1]), ops[|ops|-1], id);
    }
  }

  /** Every session in the table is open and every session that left it is closed, after any operations. */
  lemma RunsStayConsistent(ops: seq<Op>)
    ensures Consistent(RunAll(EMPTY, ops))
  {
    SessionsAgeOneWay(EMPTY, ops, "");
  }

  /** So the answer of `SetConn`, whether both sides are there, is whether the session is active. */
  lemma ActiveIffBoth(ops: seq<Op>, id: SessionId)
    requires id in RunAll(EMPTY, ops).live
    ensures var s := RunAll(EMPTY, ops).live[id]; s.phase == Active <==> s.client.Some? && s.workerSide.Some?
  {
    RunsStayConsistent(ops);
  }

  /** With each method one step, only a session that never became active is ever reaped. */
  lemma ReapSparesActive(st: Store, now: int, id: SessionId)
    requires Consistent(st) && id in st.live && st.live[id].client.Some? && st.live[id].workerSide.Some?
    ensures id in Run(st, OpReap(now)).live && Run(st, OpReap(now)).live[id] == st.live[id]
  {
  }
}
