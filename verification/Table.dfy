/**
  The transactions that change rows of the workstations table. Each is a function on one row;
  the class runs them as the server does, on the row found under FOR UPDATE.
*/
module Table {
  import opened Types

  type Rows = map<WorkstationId, Row>

  datatype Reply = Done(row: Row) | Removed | NotFound | BeingDeleted | UnsupportedDesired | WrongWorker

  predicate GoingAway(power: Power) {
    power == Power.Deleting || power == Power.Deleted
  }

  /** A row that a release has condemned, or that is already gone. */
  predicate Condemned(rows: Rows, id: WorkstationId) {
    id !in rows || rows[id].desired == Desired.Deleted
  }

  /** Who owns a row, where it is placed and what its VM is called. */
  predicate SamePlacement(a: Row, b: Row) {
    a.member == b.member && a.worker == b.worker && a.slot == b.slot && a.vmName == b.vmName
  }

  /** What a member's wish makes of a row, field by field. */
  predicate Wished(row: Row, wish: Desired, after: Row) {
    && after.desired == wish && SamePlacement(row, after)
    && match wish
       case Running => after.power == (match row.power case Stopped => Power.Starting case Error => Power.Starting case other => other)
       case Stopped => after.power == (match row.power case Starting => Power.Stopping case Running => Power.Stopping case other => other)
       case Deleted => after.power == Power.Deleting
       case Unknown(_) => false
  }

  /** What a report makes of a row that is not released: the reported power, and nothing else. */
  predicate Reported(row: Row, power: Power, after: Row) {
    after.power == power && after.desired == row.desired && SamePlacement(row, after)
  }

  /** UNIQUE (worker_id, slot). */
  ghost predicate SlotsUnique(rows: Rows) {
    forall a, b :: a in rows && b in rows && a != b ==> rows[a].worker != rows[b].worker || rows[a].slot != rows[b].slot
  }

  /** All rows but one are as before. */
  ghost predicate OthersSame(rows: Rows, rows': Rows, id: WorkstationId) {
    forall k :: k != id ==> (k in rows <==> k in rows') && (k in rows ==> rows'[k] == rows[k])
  }

  /** The update that asks for a running VM; a stopped or failed one is starting from now on. */
  function Restarted(row: Row): Row {
    row.(desired := Desired.Running,
         power := if row.power == Power.Stopped || row.power == Power.Error then Power.Starting else row.power)
  }

  /** What a member asking for a running workstation does to its row. */
  function EnsureRunning(row: Row): Row {
    if row.desired == Desired.Deleted || GoingAway(row.power) then row else Restarted(row)
  }

  /** Set desired state: refused on a row that is being deleted, and for an unknown state. */
  function SetDesired(row: Row, desired: Desired): Reply {
    if GoingAway(row.power) then
      BeingDeleted
    else
      match desired
      case Running =>
        Done(row.(desired := desired,
                  power := if row.power == Power.Stopped || row.power == Power.Error then Power.Starting else row.power))
      case Stopped =>
        Done(row.(desired := desired,
                  power := if row.power == Power.Starting || row.power == Power.Running then Power.Stopping else row.power))
      case Deleted =>
        Done(row.(desired := desired, power := Power.Deleting))
      case Unknown(_) =>
        UnsupportedDesired
  }

  /** A status report: a released row is removed by "deleted" and otherwise keeps its state. */
  function ReportStatus(row: Row, worker: WorkerId, power: Power): Reply {
    if row.worker != worker then
      WrongWorker
    else if row.desired == Desired.Deleted then
      if power == Power.Deleted then Removed else Done(row)
    else
      Done(row.(power := power))
  }

  /** The table after a transaction on row `id` replied. */
  function Commit(rows: Rows, id: WorkstationId, reply: Reply): Rows {
    match reply
    case Done(row) => rows[id := row]
    case Removed => rows - {id}
    case _ => rows
  }

  function EnsureRunningReply(rows: Rows, member: MemberId, id: WorkstationId): Reply {
    if id in rows && rows[id].member == member then Done(EnsureRunning(rows[id])) else NotFound
  }

  function SetDesiredReply(rows: Rows, member: MemberId, id: WorkstationId, desired: Desired): Reply {
    if id in rows && rows[id].member == member then SetDesired(rows[id], desired) else NotFound
  }

  function ReportReply(rows: Rows, worker: WorkerId, report: Report): Reply {
    if report.id in rows then ReportStatus(rows[report.id], worker, report.power) else NotFound
  }

  /** The rows of one worker as the desired list of its heartbeat response. */
  function DesiredFor(rows: Rows, worker: WorkerId): map<WorkstationId, Item> {
    map id | id in rows && rows[id].worker == worker :: Item(rows[id].vmName, rows[id].slot, rows[id].desired)
  }

  // The name a workstation's VM gets: "ws-" and the first 12 characters of its id without dashes.

  function WithoutDashes(s: string): string {
    if s == "" then "" else if s[0] == '-' then WithoutDashes(s[1..]) else [s[0]] + WithoutDashes(s[1..])
  }

  function VMNameOf(id: WorkstationId): VMName {
    var trimmed := WithoutDashes(id);
    "ws-" + if |trimmed| > 12 then trimmed[..12] else trimmed
  }

  lemma {:induction false} WithoutDashesOf(s: string, rest: string)
    requires '-' !in s
    ensures WithoutDashes(s + rest) == s + WithoutDashes(rest)
  {
    if s == "" {
      assert s + rest == rest;
    } else {
      WithoutDashesOf(s[1..], rest);
      assert (s + rest)[1..] == s[1..] + rest;
      assert s == [s[0]] + s[1..];
    }
  }

  /** The VM of a workstation is called by the first two groups of its UUID, 8 and 4 digits. */
  lemma VMNameOfUuid(first: string, second: string, rest: string)
    requires |first| == 8 && |second| == 4 && '-' !in first && '-' !in second
    ensures VMNameOf(first + ("-" + (second + ("-" + rest)))) == "ws-" + first + second
  {
    var tail := second + ("-" + rest);
    WithoutDashesOf(first, "-" + tail);
    assert ("-" + tail)[1..] == tail;
    WithoutDashesOf(second, "-" + rest);
    var all := WithoutDashes("-" + rest);
    assert first + (second + all) == (first + second) + all;
    assert ((first + second) + all)[..12] == first + second;
    assert all == [] ==> (first + second) + all == first + second;
  }

  class WorkstationTable {
    var rows: Rows

    constructor ()
      ensures rows == map[]
    {
      rows := map[];
    }

    method EnsureRunningByID(member: MemberId, id: WorkstationId) returns (reply: Reply)
      modifies this
      ensures reply == EnsureRunningReply(old(rows), member, id)
      ensures rows == Commit(old(rows), id, reply) && OthersSame(old(rows), rows, id)
      ensures id in old(rows) && old(rows)[id].member == member ==> reply.Done? && id in rows && reply.row == rows[id]
      ensures id in old(rows) && old(rows)[id].member == member ==>
        if old(rows)[id].desired == Desired.Deleted || GoingAway(old(rows)[id].power) then rows[id] == old(rows)[id]
        else Wished(old(rows)[id], Desired.Running, rows[id])
      ensures id !in old(rows) || old(rows)[id].member != member ==> reply == NotFound && rows == old(rows)
    {
      if id !in rows || rows[id].member != member {
        return NotFound;
      }
      var row := rows[id];
      if row.desired == Desired.Deleted {
        reply := Done(row);
      } else if GoingAway(row.power) {
        reply := Done(row);
      } else {
        reply := ClaimExisting(id);
      }
      assert reply.Done? ==> rows == old(rows)[id := reply.row];
    }

    /** The update behind ensure-running; on its own it refuses a row that is being deleted. */
    method ClaimExisting(id: WorkstationId) returns (reply: Reply)
      requires id in rows
      modifies this
      ensures GoingAway(old(rows)[id].power) ==> reply == BeingDeleted && rows == old(rows)
      ensures !GoingAway(old(rows)[id].power) ==>
                reply == Done(Restarted(old(rows)[id])) && rows == old(rows)[id := reply.row] && Wished(old(rows)[id], Desired.Running, rows[id])
    {
      var row := rows[id];
      match row.power {
        case Deleting => return BeingDeleted;
        case Deleted => return BeingDeleted;
        case Stopped =>
          row := row.(desired := Desired.Running, power := Power.Starting);
        case Error =>
          row := row.(desired := Desired.Running, power := Power.Starting);
        case Stopping =>
          row := row.(desired := Desired.Running);
        case _ =>
          if row.desired != Desired.Running {
            row := row.(desired := Desired.Running);
          }
      }
      rows := rows[id := row];
      return Done(row);
    }

    method UpdateDesiredByID(member: MemberId, id: WorkstationId, desired: Desired) returns (reply: Reply)
      modifies this
      ensures reply == SetDesiredReply(old(rows), member, id, desired)
      ensures rows == Commit(old(rows), id, reply) && OthersSame(old(rows), rows, id)
      ensures reply.Done? <==> id in old(rows) && old(rows)[id].member == member && !GoingAway(old(rows)[id].power) && !desired.Unknown?
      ensures reply.Done? ==> id in rows && reply.row == rows[id] && Wished(old(rows)[id], desired, rows[id])
      ensures !reply.Done? ==> rows == old(rows)
    {
      if id !in rows || rows[id].member != member {
        return NotFound;
      }
      var row := rows[id];
      if row.power == Power.Deleting || row.power == Power.Deleted {
        return BeingDeleted;
      }
      var next := row.power;
      match desired {
        case Running =>
          if row.power == Power.Stopped || row.power == Power.Error {
            next := Power.Starting;
          }
        case Stopped =>
          if row.power == Power.Starting || row.power == Power.Running {
            next := Power.Stopping;
          }
        case Deleted =>
          next := Power.Deleting;
        case Unknown(_) =>
          return UnsupportedDesired;
      }
      row := row.(desired := desired, power := next);
      rows := rows[id := row];
      return Done(row);
    }

    method UpdateStatus(worker: WorkerId, report: Report) returns (reply: Reply)
      modifies this
      ensures reply == ReportReply(old(rows), worker, report)
      ensures rows == Commit(old(rows), report.id, reply) && OthersSame(old(rows), rows, report.id)
      ensures report.id in old(rows) && old(rows)[report.id].worker == worker && old(rows)[report.id].desired != Desired.Deleted ==>
        report.id in rows && Reported(old(rows)[report.id], report.power, rows[report.id])
      ensures report.id in old(rows) && old(rows)[report.id].worker == worker && old(rows)[report.id].desired == Desired.Deleted ==>
        if report.power == Power.Deleted then report.id !in rows else rows == old(rows)
      ensures report.id !in old(rows) || old(rows)[report.id].worker != worker ==> rows == old(rows)
    {
      if report.id !in rows {
        return NotFound;
      }
      var row := rows[report.id];
      if row.worker != worker {
        return WrongWorker;
      }
      if report.power == Power.Deleted && row.desired == Desired.Deleted {
        rows := rows - {report.id};
        return Removed;
      }
      if row.desired == Desired.Deleted {
        rows := rows[report.id := row];
        return Done(row);
      }
      row := row.(power := report.power);
      rows := rows[report.id := row];
      return Done(row);
    }

    /**
      The heartbeat handler: apply every report in turn, then list what the worker should have. A report that the
      database fails to store is logged and skipped.
    */
    method HandleHeartbeat(worker: WorkerId, reports: seq<Report>, stored: seq<bool>) returns (desired: map<WorkstationId, Item>)
      requires |stored| == |reports|
      modifies this
      ensures rows == ApplyReports(old(rows), worker, StoredOf(reports, stored))
      ensures desired == DesiredFor(rows, worker)
      ensures forall id :: id in desired <==> id in rows && rows[id].worker == worker
      ensures forall id :: id in desired ==>
        desired[id].desired == rows[id].desired && desired[id].vmName == rows[id].vmName && desired[id].slot == rows[id].slot
    {
      for i := 0 to |reports|
        invariant rows == ApplyReports(old(rows), worker, StoredOf(reports[..i], stored[..i]))
      {
        assert reports[..i+1][..i] == reports[..i] && stored[..i+1][..i] == stored[..i];
        ghost var done := StoredOf(reports[..i], stored[..i]);
        assert (done + [reports[i]])[..|done|] == done && done + [] == done;
        if stored[i] {
          var reply := UpdateStatus(worker, reports[i]);
        }
      }
      assert reports[..|reports|] == reports && stored[..|stored|] == stored;
      desired := DesiredFor(rows, worker);
    }
  }

  /** The reports that were stored, in order. */
  function StoredOf(reports: seq<Report>, stored: seq<bool>): seq<Report>
    requires |stored| == |reports|
  {
    if reports == [] then []
    else
      var n := |reports| - 1;
      StoredOf(reports[..n], stored[..n]) + if stored[n] then [reports[n]] else []
  }

  lemma {:induction false} StoredAreReports(reports: seq<Report>, stored: seq<bool>)
    requires |stored| == |reports| && DistinctReports(reports)
    ensures DistinctReports(StoredOf(reports, stored)) && forall r :: r in StoredOf(reports, stored) ==> r in reports
  {
    if reports != [] {
      var n := |reports| - 1;
      StoredAreReports(reports[..n], stored[..n]);
      forall r | r in StoredOf(reports[..n], stored[..n]) ensures r.id != reports[n].id {
        assert r in reports[..n];
      }
    }
  }

  /** With one report per workstation, report `i` is among what is stored exactly when it was stored. */
  lemma {:induction false} StoredIff(reports: seq<Report>, stored: seq<bool>, i: nat)
    requires |stored| == |reports| && DistinctReports(reports) && i < |reports|
    ensures reports[i] in StoredOf(reports, stored) <==> stored[i]
  {
    var n := |reports| - 1;
    if i < n {
      StoredIff(reports[..n], stored[..n], i);
    } else {
      StoredAreReports(reports[..n], stored[..n]);
    }
  }

  function ApplyReports(rows: Rows, worker: WorkerId, reports: seq<Report>): Rows {
    if reports == [] then
      rows
    else
      var n := |reports| - 1;
      var before := ApplyReports(rows, worker, reports[..n]);
      Commit(before, reports[n].id, ReportReply(before, worker, reports[n]))
  }

  // What every transaction keeps.

  /** A released row is "deleting" and no other row is; "deleted" is never stored. */
  predicate ReleaseConsistent(row: Row) {
    && (row.desired == Desired.Deleted <==> row.power == Power.Deleting)
    && row.power != Power.Deleted
    && !row.desired.Unknown?
  }

  /**
    Every member transaction and every status report keeps a row's placement, keeps the release states
    consistent, and never takes a row out of "condemned"; the reports "deleting" and "deleted" may only
    be about a condemned row.
  */
  lemma RowTransactionsAreOneWay(rows: Rows, id: WorkstationId, reply: Reply,
                                 member: MemberId, desired: Desired, worker: WorkerId, power: Power)
    requires id in rows && ReleaseConsistent(rows[id])
    requires || reply == EnsureRunningReply(rows, member, id)
             || reply == SetDesiredReply(rows, member, id, desired)
             || (reply == ReportReply(rows, worker, Report(id, power)) && (GoingAway(power) ==> Condemned(rows, id)))
    ensures var rows' := Commit(rows, id, reply);
            && (id in rows' ==> SamePlacement(rows[id], rows'[id]) && ReleaseConsistent(rows'[id]))
            && (Condemned(rows, id) ==> Condemned(rows', id))
            && (id !in rows' ==> rows[id].desired == Desired.Deleted && rows[id].worker == worker && power == Power.Deleted)
            && forall other :: other != id ==> (other in rows <==> other in rows') && (other in rows ==> rows'[other] == rows[other])
  {
  }

  /** Each wish of a member and each report of its worker makes of a row what it should, and refuses what it should. */
  lemma RowByFields(row: Row, wish: Desired, worker: WorkerId, power: Power)
    ensures if GoingAway(row.power) then SetDesired(row, wish) == BeingDeleted
            else if wish.Unknown? then SetDesired(row, wish) == UnsupportedDesired
            else SetDesired(row, wish).Done? && Wished(row, wish, SetDesired(row, wish).row)
    ensures if row.desired == Desired.Deleted || GoingAway(row.power) then EnsureRunning(row) == row
            else Wished(row, Desired.Running, EnsureRunning(row))
    ensures if row.worker != worker then ReportStatus(row, worker, power) == WrongWorker
            else if row.desired != Desired.Deleted then
              ReportStatus(row, worker, power).Done? && Reported(row, power, ReportStatus(row, worker, power).row)
            else ReportStatus(row, worker, power) == if power == Power.Deleted then Removed else Done(row)
  {
  }

  /** A member's wish shows in the row: asked to run, it is not left stopped or failed; asked to stop, not left running. */
  lemma RequestsShowInPower(row: Row)
    requires ReleaseConsistent(row) && row.desired != Desired.Deleted
    ensures SetDesired(row, Desired.Running).Done? && SetDesired(row, Desired.Stopped).Done? && SetDesired(row, Desired.Deleted).Done?
    ensures SetDesired(row, Desired.Running).row.power in {Power.Starting, Power.Running, Power.Stopping}
    ensures SetDesired(row, Desired.Stopped).row.power in {Power.Stopping, Power.Stopped, Power.Error}
    ensures EnsureRunning(row) == SetDesired(row, Desired.Running).row
  {
  }

  /** Delivering a report a second time, right after the first, changes nothing. */
  lemma RepeatedReportChangesNothing(rows: Rows, worker: WorkerId, report: Report)
    ensures var once := Commit(rows, report.id, ReportReply(rows, worker, report));
            Commit(once, report.id, ReportReply(once, worker, report)) == once
  {
  }

  ghost predicate SameAt(a: Rows, b: Rows, id: WorkstationId) {
    (id in a <==> id in b) && (id in a ==> a[id] == b[id])
  }

  ghost predicate DistinctReports(reports: seq<Report>) {
    forall i, j :: 0 <= i < j < |reports| ==> reports[i].id != reports[j].id
  }

  /** A report's effect on its row depends on that row alone, and leaves the others alone. */
  lemma ReportIsLocal(a: Rows, b: Rows, worker: WorkerId, r: Report, id: WorkstationId)
    requires SameAt(a, b, id)
    ensures r.id == id ==> SameAt(Commit(a, id, ReportReply(a, worker, r)), Commit(b, id, ReportReply(b, worker, r)), id)
    ensures r.id != id ==> SameAt(Commit(a, r.id, ReportReply(a, worker, r)), b, id)
  {
  }

  /** A heartbeat with one report per workstation treats each row by its own report, and no other row. */
  lemma {:induction false} HeartbeatIsPointwise(rows: Rows, worker: WorkerId, reports: seq<Report>, id: WorkstationId)
    requires DistinctReports(reports)
    ensures (forall r :: r in reports ==> r.id != id) ==> SameAt(ApplyReports(rows, worker, reports), rows, id)
    ensures forall r :: r in reports && r.id == id ==>
      SameAt(ApplyReports(rows, worker, reports), Commit(rows, id, ReportReply(rows, worker, r)), id)
  {
    if reports != [] {
      var n := |reports| - 1;
      var before := ApplyReports(rows, worker, reports[..n]);
      HeartbeatIsPointwise(rows, worker, reports[..n], id);
      assert reports == reports[..n] + [reports[n]];
      if reports[n].id == id {
        assert forall r :: r in reports[..n] ==> r.id != id;
        ReportIsLocal(before, rows, worker, reports[n], id);
      } else {
        ReportIsLocal(before, before, worker, reports[n], id);
      }
    }
  }

  /** What the heartbeat handler does to one row: its own report if that was stored, and otherwise nothing. */
  lemma HeartbeatTreatsEach(rows: Rows, worker: WorkerId, reports: seq<Report>, stored: seq<bool>, id: WorkstationId)
    requires |stored| == |reports| && DistinctReports(reports)
    ensures var after := ApplyReports(rows, worker, StoredOf(reports, stored));
            && (forall i :: 0 <= i < |reports| && reports[i].id == id ==>
                  SameAt(after, if stored[i] then Commit(rows, id, ReportReply(rows, worker, reports[i])) else rows, id))
            && ((forall r :: r in reports ==> r.id != id) ==> SameAt(after, rows, id))
  {
    var kept := StoredOf(reports, stored);
    StoredAreReports(reports, stored);
    HeartbeatIsPointwise(rows, worker, kept, id);
    forall i | 0 <= i < |reports| ensures reports[i] in kept <==> stored[i] {
      StoredIff(reports, stored, i);
    }
    forall i | 0 <= i < |reports| && reports[i].id == id && !stored[i] ensures forall r :: r in kept ==> r.id != id {
      forall r | r in kept ensures r.id != id {
        var j :| 0 <= j < |reports| && reports[j] == r;
        assert j != i;
      }
    }
  }
}
