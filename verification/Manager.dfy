/** The worker's table of runtimes: applying a desired list, reconciling all, forgetting the deleted. */
module Manager {
  import opened Types
  import opened Runtime

  type Runtimes = map<WorkstationId, Runtime>

  /** One entry of a desired list as it arrives, with its id. */
  datatype Entry = Entry(id: WorkstationId, item: Item)

  /** The runtimes after an authoritative desired list: told what is listed, condemned where it is not. */
  function ApplyDesired(runtimes: Runtimes, desired: map<WorkstationId, Item>): Runtimes {
    map id | id in runtimes.Keys + desired.Keys ::
      if id !in desired then runtimes[id].(desired := Desired.Deleted)
      else if id in runtimes then runtimes[id].(desired := desired[id].desired)
      else Fresh(id, desired[id])
  }

  /** Only what it is told has changed. */
  predicate SameButDesired(a: Runtime, b: Runtime) {
    b == a.(desired := b.desired)
  }

  /** Every listed runtime has the listed desired state, new ones are stopped, and the others are told to be deleted. */
  ghost predicate ToldByList(before: Runtimes, list: seq<Entry>, after: Runtimes) {
    && (forall k :: 0 <= k < |list| ==>
          && list[k].id in after && after[list[k].id].desired == list[k].item.desired
          && (if list[k].id in before then SameButDesired(before[list[k].id], after[list[k].id])
              else after[list[k].id] == Runtime(list[k].id, list[k].item.vmName, list[k].item.slot, list[k].item.desired, Power.Stopped, None, false)))
    && (forall id :: id in before && id !in IdsOf(list) ==>
          id in after && after[id].desired == Desired.Deleted && SameButDesired(before[id], after[id]))
    && (forall id :: id in after ==> id in before || id in IdsOf(list))
  }

  /** The clean-up after a reconcile: a deleted runtime that nobody desires is dropped. */
  function Prune(runtimes: Runtimes, desiredIDs: set<WorkstationId>): Runtimes {
    map id | id in runtimes && (id in desiredIDs || runtimes[id].state != Power.Deleted) :: runtimes[id]
  }

  function IdsOf(list: seq<Entry>): set<WorkstationId> {
    set e | e in list :: e.id
  }

  predicate DistinctIds(list: seq<Entry>) {
    forall i, j :: 0 <= i < j < |list| ==> list[i].id != list[j].id
  }

  /** A list with distinct ids, as a map. */
  function AsMap(list: seq<Entry>): map<WorkstationId, Item> {
    if list == [] then map[] else AsMap(list[..|list|-1])[list[|list|-1].id := list[|list|-1].item]
  }

  lemma {:induction false} AsMapKeys(list: seq<Entry>)
    ensures AsMap(list).Keys == IdsOf(list)
  {
    if list != [] {
      var n := |list| - 1;
      AsMapKeys(list[..n]);
      assert list == list[..n] + [list[n]];
    }
  }

  /** One turn of the first loop: tell the runtime, or start one. */
  function Told(runtimes: Runtimes, e: Entry): Runtimes {
    runtimes[e.id := if e.id in runtimes then runtimes[e.id].(desired := e.item.desired) else Fresh(e.id, e.item)]
  }

  function ToldAll(runtimes: Runtimes, list: seq<Entry>): Runtimes {
    if list == [] then runtimes else Told(ToldAll(runtimes, list[..|list|-1]), list[|list|-1])
  }

  /** The second loop: whatever the list leaves out is to be deleted. */
  function Marked(runtimes: Runtimes, ids: set<WorkstationId>): Runtimes {
    map id | id in runtimes :: if id in ids then runtimes[id] else runtimes[id].(desired := Desired.Deleted)
  }

  /** The first loop, as one pointwise update. */
  function Overlay(runtimes: Runtimes, desired: map<WorkstationId, Item>): Runtimes {
    map id | id in runtimes.Keys + desired.Keys ::
      if id !in desired then runtimes[id]
      else if id in runtimes then runtimes[id].(desired := desired[id].desired)
      else Fresh(id, desired[id])
  }

  lemma {:induction false} ToldAllIsOverlay(runtimes: Runtimes, list: seq<Entry>)
    requires DistinctIds(list)
    ensures ToldAll(runtimes, list) == Overlay(runtimes, AsMap(list))
  {
    if list != [] {
      var n := |list| - 1;
      ToldAllIsOverlay(runtimes, list[..n]);
      AsMapKeys(list[..n]);
      assert list[n].id !in IdsOf(list[..n]);
      TellIsOverlay(runtimes, AsMap(list[..n]), list[n]);
    }
  }

  lemma TellIsOverlay(runtimes: Runtimes, desired: map<WorkstationId, Item>, e: Entry)
    requires e.id !in desired
    ensures Told(Overlay(runtimes, desired), e) == Overlay(runtimes, desired[e.id := e.item])
  {
    assert Told(Overlay(runtimes, desired), e).Keys == Overlay(runtimes, desired[e.id := e.item]).Keys;
  }

  /** The two loops over a list with distinct ids do the pointwise update of the protocol. */
  lemma {:induction false} AsMapEntry(list: seq<Entry>, k: nat)
    requires DistinctIds(list) && k < |list|
    ensures list[k].id in AsMap(list) && AsMap(list)[list[k].id] == list[k].item
  {
    var n := |list| - 1;
    if k < n {
      AsMapEntry(list[..n], k);
    }
  }

  /** What an authoritative list tells, entry by entry. */
  lemma ApplyDesiredByFields(runtimes: Runtimes, list: seq<Entry>)
    requires DistinctIds(list)
    ensures ToldByList(runtimes, list, ApplyDesired(runtimes, AsMap(list)))
  {
    AsMapKeys(list);
    forall k | 0 <= k < |list| ensures list[k].id in AsMap(list) && AsMap(list)[list[k].id] == list[k].item {
      AsMapEntry(list, k);
    }
  }

  lemma LoopsApplyDesired(runtimes: Runtimes, list: seq<Entry>)
    requires DistinctIds(list)
    ensures Marked(ToldAll(runtimes, list), IdsOf(list)) == ApplyDesired(runtimes, AsMap(list))
  {
    ToldAllIsOverlay(runtimes, list);
    AsMapKeys(list);
  }

  class WorkstationManager {
    var runtimes: map<WorkstationId, WorkstationRuntime>
    var desiredIDs: set<WorkstationId>

    constructor ()
      ensures Valid() && runtimes == map[] && desiredIDs == {}
    {
      runtimes, desiredIDs := map[], {};
    }

    /** Each id has its own runtime object. */
    ghost predicate Valid()
      reads this
    {
      forall id :: id in runtimes ==> runtimes[id].workstationID == id
    }

    ghost function Values(): Runtimes
      reads this, runtimes.Values
    {
      map id | id in runtimes :: runtimes[id].Value()
    }

    method ApplyDesiredWorkstations(list: seq<Entry>, authoritative: bool)
      requires Valid()
      modifies this, runtimes.Values
      ensures Valid()
      ensures !authoritative ==> Values() == old(Values()) && desiredIDs == old(desiredIDs)
      ensures authoritative ==> desiredIDs == IdsOf(list)
      ensures authoritative && DistinctIds(list) ==> Values() == ApplyDesired(old(Values()), AsMap(list))
      ensures authoritative && DistinctIds(list) ==> ToldByList(old(Values()), list, Values())
    {
      if !authoritative {
        return;
      }
      ghost var before := Values();
      desiredIDs := IdsOf(list);
      assert Values() == before;
      TellAll(list);
      MarkUndesired();
      if DistinctIds(list) {
        LoopsApplyDesired(before, list);
        ApplyDesiredByFields(before, list);
      }
    }

    /** The first loop: tell every listed runtime, starting the missing ones. */
    method TellAll(list: seq<Entry>)
      requires Valid()
      modifies this, runtimes.Values
      ensures Valid() && desiredIDs == old(desiredIDs)
      ensures Values() == ToldAll(old(Values()), list)
      ensures forall r :: r in runtimes.Values ==> r in old(runtimes.Values) || fresh(r)
    {
      for i := 0 to |list|
        invariant Valid() && desiredIDs == old(desiredIDs)
        invariant forall r :: r in runtimes.Values ==> r in old(runtimes.Values) || fresh(r)
        invariant Values() == ToldAll(old(Values()), list[..i])
      {
        Tell(list[i]);
        assert list[..i+1][..i] == list[..i];
      }
      assert list[..|list|] == list;
    }

    method Tell(e: Entry)
      requires Valid()
      modifies this, runtimes.Values
      ensures Valid() && desiredIDs == old(desiredIDs)
      ensures Values() == Told(old(Values()), e)
      ensures forall r :: r in runtimes.Values ==> r in old(runtimes.Values) || fresh(r)
    {
      if e.id in runtimes {
        assert runtimes[e.id] in runtimes.Values;
        runtimes[e.id].Apply(e.item);
      } else {
        var created := new WorkstationRuntime(e.id, e.item);
        runtimes := runtimes[e.id := created];
      }
    }

    /** The second loop: every runtime outside the list is to be deleted. */
    method MarkUndesired()
      requires Valid()
      modifies runtimes.Values
      ensures Valid()
      ensures Values() == Marked(old(Values()), desiredIDs)
    {
      var todo := runtimes.Keys;
      while todo != {}
        invariant todo <= runtimes.Keys
        invariant forall id :: id in runtimes && (id in desiredIDs || id in todo) ==>
          runtimes[id].Value() == old(runtimes[id].Value())
        invariant forall id :: id in runtimes && id !in desiredIDs && id !in todo ==>
          runtimes[id].Value() == old(runtimes[id].Value()).(desired := Desired.Deleted)
        decreases todo
      {
        var id :| id in todo;
        if id !in desiredIDs {
          runtimes[id].MarkForDeletion();
        }
        todo := todo - {id};
      }
    }

    /** Reconcile every runtime in some order, then drop the deleted ones that are not desired. */
    method Reconcile(host: TartHost, answers: map<WorkstationId, seq<Outcome>>)
      requires Valid() && DistinctNames()
      requires forall id :: id in runtimes ==> id in answers && |answers[id]| >= 8
      modifies this, runtimes.Values, host
      ensures Valid() && desiredIDs == old(desiredIDs)
      ensures forall id :: id in old(runtimes) ==>
        var end := Reconciled(old(Values())[id], old(Values())[id].vmName in old(host.vms), answers[id]);
        && end.onDisk == (old(Values())[id].vmName in host.vms)
        && (id in runtimes <==> id in desiredIDs || end.rt.state != Power.Deleted)
        && (id in runtimes ==> Values()[id] == end.rt)
      ensures runtimes.Keys <= old(runtimes.Keys)
    {
      ReconcileAll(host, answers);
      DropDeleted();
    }

    /** No two runtimes manage the same VM: vm_name is UNIQUE in the table the list comes from. */
    ghost predicate DistinctNames()
      reads this
    {
      forall a, b :: a in runtimes && b in runtimes && a != b ==> runtimes[a].vmName != runtimes[b].vmName
    }

    /** Reconciling one runtime leaves the others and their VMs alone. */
    method ReconcileOne(host: TartHost, id: WorkstationId, answers: seq<Outcome>)
      requires Valid() && DistinctNames() && id in runtimes && |answers| >= 8
      modifies runtimes[id], host
      ensures runtimes[id].At(host, Idle) == Reconciled(old(runtimes[id].Value()), runtimes[id].vmName in old(host.vms), answers)
      ensures forall k :: k in runtimes && k != id ==> runtimes[k].At(host, Idle) == old(runtimes[k].At(host, Idle))
    {
      runtimes[id].Reconcile(host, answers);
    }

    method ReconcileAll(host: TartHost, answers: map<WorkstationId, seq<Outcome>>)
      requires Valid() && DistinctNames()
      requires forall id :: id in runtimes ==> id in answers && |answers[id]| >= 8
      modifies runtimes.Values, host
      ensures forall id :: id in runtimes ==>
        runtimes[id].At(host, Idle) == Reconciled(old(runtimes[id].Value()), runtimes[id].vmName in old(host.vms), answers[id])
    {
      var todo := runtimes.Keys;
      while todo != {}
        invariant todo <= runtimes.Keys
        invariant forall id :: id in todo ==>
          runtimes[id].At(host, Idle) == old(runtimes[id].At(host, Idle))
        invariant forall id :: id in runtimes && id !in todo ==>
          runtimes[id].At(host, Idle) == Reconciled(old(runtimes[id].Value()), runtimes[id].vmName in old(host.vms), answers[id])
        decreases todo
      {
        var id :| id in todo;
        ReconcileOne(host, id, answers[id]);
        todo := todo - {id};
      }
    }

    method DropDeleted()
      requires Valid()
      modifies this
      ensures Valid() && desiredIDs == old(desiredIDs)
      ensures runtimes == map id | id in old(runtimes) && (id in desiredIDs || old(runtimes)[id].state != Power.Deleted) :: old(runtimes)[id]
    {
      var todo := runtimes.Keys;
      while todo != {}
        invariant todo <= runtimes.Keys <= old(runtimes.Keys)
        invariant desiredIDs == old(desiredIDs)
        invariant forall id :: id in runtimes ==> runtimes[id] == old(runtimes)[id]
        invariant forall id :: id in old(runtimes) && id !in todo ==>
          (id in runtimes <==> id in desiredIDs || old(runtimes)[id].state != Power.Deleted)
        decreases todo
      {
        var id :| id in todo;
        if id !in desiredIDs && runtimes[id].state == Power.Deleted {
          runtimes := runtimes - {id};
        }
        todo := todo - {id};
      }
    }
  }
}
