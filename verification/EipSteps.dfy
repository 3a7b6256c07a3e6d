/**
 Every step of an Eip reconcile keeps the invariant.

 For each call there is a lemma named `...Step`, and where the next call needs an argument of its own one named
 `...Task`. The points where the order of the calls matters are these: the address is looked up by its uid before
 one is allocated, so there is never a second; the copy whose claim is compared with the listing is the one the
 compare-and-swap is made from; and a cleanup releases all addresses before the finalizer goes. `Advance` is the
 common frame: a change of the stores that the invariant and the other tasks allow, followed by the next call of
 the task that made it.
 */
module EipSteps {
  import opened Base
  import opened Protocol
  import opened Invariants
  import opened Interference
  import opened Effects
  import Kube
  import Aws

  // ---- Shared by all steps ----

  predicate SameStores(s: State, s': State) {
    s'.kube == s.kube && s'.aws == s.aws && s'.seenEips == s.seenEips && s'.seenPods == s.seenPods
        && s'.condemned == s.condemned
  }

  lemma SameStoreInv(c: Config, s: State, s': State)
    requires StoreInv(c, s) && SameStores(s, s')
    ensures StoreInv(c, s')
  {
    PodWatchLinks(c, s, s');
    SameKube(c, s, s');
  }

  lemma SameRely(s: State, s1: State, s': State, o: Owner)
    requires Rely(s, s1, o) && SameStores(s1, s')
    ensures Rely(s, s', o)
  {
  }

  lemma NoChangeRely(s: State, o: Owner)
    ensures Rely(s, s, o)
  {
  }

  ghost predicate TaskNow(c: Config, s: State, o: Owner) {
    o in s.tasks ==> TaskOk(c, s, o, s.tasks[o])
  }

  predicate OthersKept(s: State, s': State, o: Owner) {
    forall p :: p in s'.tasks && p != o ==> p in s.tasks && s'.tasks[p] == s.tasks[p]
  }

  /** A step of `o`'s task: `s1` has the new stores, `s'` also has the new tasks. */
  lemma Advance(c: Config, s: State, s1: State, s': State, o: Owner)
    requires Inv(c, s) && s.phase.Running? && s'.phase.Running?
    requires StoreInv(c, s1) && RelyOthers(s, s1, o) && SameStores(s1, s')
    requires OthersKept(s, s', o)
    requires TaskNow(c, s', o)
    ensures Inv(c, s')
  {
    SameStoreInv(c, s1, s');
    forall p | p != o ensures Rely(s, s', p) {
      SameRely(s, s1, s', p);
    }
    KeepTasks(c, s, s', o);
  }

  /** As above when the stores do not change. */
  lemma AdvanceQuietly(c: Config, s: State, s': State, o: Owner)
    requires Inv(c, s) && s.phase.Running? && s'.phase.Running? && SameStores(s, s')
    requires OthersKept(s, s', o)
    requires TaskNow(c, s', o)
    ensures Inv(c, s')
  {
    forall p | p != o ensures Rely(s, s, p) {
      NoChangeRely(s, p);
    }
    Advance(c, s, s, s', o);
  }

  /** A task that ends without a write. */
  lemma EndQuietly(c: Config, s: State, o: Owner)
    requires Inv(c, s) && s.phase.Running?
    ensures Inv(c, End(s, o))
  {
    hide StoreInv, TaskOk, TasksOk, RelyOthers;
    AdvanceQuietly(c, s, End(s, o), o);
  }

  /** A compare-and-swap succeeds only from the current object. */
  lemma CasCurrent(k: Kube.Store, e: Eip)
    requires LogOk(k) && CurrentOk(k) && e in k.eipLog && e.key in k.eips && k.eips[e.key].version == e.version
    ensures k.eips[e.key] == e
  {
    assert SameVersion(k.eips[e.key], e);
  }

  /** A good status write keeps the stores, and everybody who does not act for this Eip may rely on it. */
  lemma WriteOk(c: Config, s: State, key: Key, status: Status, o: Owner)
    requires StoreInv(c, s) && key in s.kube.eips
    requires GoodUpdate(c, s, s.kube.eips[key].(status := Some(status)))
    requires status.resourceId == None || Some(status.resourceId) == Some(s.kube.eips[key].ResourceId())
             || Mine(o, s.kube.eips[key])
    ensures StoreInv(c, s.(kube := Kube.WriteStatus(s.kube, key, status)))
    ensures RelyOthers(s, s.(kube := Kube.WriteStatus(s.kube, key, status)), o)
  {
    var e := s.kube.eips[key].(status := Some(status));
    if s.kube.eips[key].status == Some(status) {
      assert s == s.(kube := Kube.WriteStatus(s.kube, key, status));
      forall p | p != o ensures Rely(s, s, p) {
        NoChangeRely(s, p);
      }
    } else {
      PutInv(c, s, e);
      forall p | p != o ensures Rely(s, Put(s, e), p) {
        PutRely(c, s, e, p);
      }
    }
  }

  // ---- Eip apply ----

  lemma DescribeStep(c: Config, s: State, o: Owner, e: Eip, choice: Choice)
    requires Inv(c, s) && s.phase.Running? && TaskOk(c, s, o, EipDescribe(e)) && AfterEipDescribe(s, o, e, choice).Some?
    ensures Inv(c, AfterEipDescribe(s, o, e, choice).value)
  {
    DescribeTask(c, s, o, e, choice);
    AdvanceQuietly(c, s, AfterEipDescribe(s, o, e, choice).value, o);
  }

  lemma DescribeTask(c: Config, s: State, o: Owner, e: Eip, choice: Choice)
    requires TaskOk(c, s, o, EipDescribe(e)) && AfterEipDescribe(s, o, e, choice).Some?
    ensures TaskNow(c, AfterEipDescribe(s, o, e, choice).value, o)
  {
  }

  lemma AllocateStep(c: Config, s: State, o: Owner, e: Eip, choice: Choice)
    requires Inv(c, s) && s.phase.Running? && TaskOk(c, s, o, EipAllocate(e)) && AfterEipAllocate(s, o, e, choice).Some?
    ensures Inv(c, AfterEipAllocate(s, o, e, choice).value)
  {
    var s1 := s.(aws := Aws.Allocate(s.aws, e.uid, e.key.ns, choice.publicIp));
    AllocateInv(c, s, e, choice.publicIp);
    forall p | p != o ensures Rely(s, s1, p) {
      AllocateRely(c, s, e, choice.publicIp, p);
    }
    Advance(c, s, s1, AfterEipAllocate(s, o, e, choice).value, o);
  }

  /** Recording the allocation either changes nothing or fills in fields that were empty. */
  lemma CreatedIsStable(c: Config, s: State, e: Eip, alloc: nat, publicIp: string)
    requires StoreInv(c, s) && Applying(c, s, e)
    requires alloc in s.aws.addrs && s.aws.addrs[alloc].uid == e.uid && s.aws.addrs[alloc].publicIp == publicIp
    ensures var cur := s.kube.eips[e.key];
            && (cur.AllocationId().Some? ==>
                  cur.AllocationId() == Some(alloc) && cur.status.value.publicIp == Some(publicIp))
            && GoodUpdate(c, s, cur.(status := Some(Kube.CurrentStatus(s.kube, e.key).(allocationId := Some(alloc),
                publicIp := Some(publicIp)))))
  {
    var cur := s.kube.eips[e.key];
    assert cur in s.kube.eipLog && StatusOk(c, cur) && AllocationOk(s, cur) && AssociationOk(s, cur)
           && PodClaimOk(s, e.key);
  }

  lemma RecordStep(c: Config, s: State, o: Owner, e: Eip, alloc: nat, publicIp: string)
    requires Inv(c, s) && s.phase.Running? && TaskOk(c, s, o, EipRecord(e, alloc, publicIp))
    ensures Inv(c, AfterEipRecord(s, o, e, alloc, publicIp).value)
  {
    CreatedIsStable(c, s, e, alloc, publicIp);
    var status := Kube.CurrentStatus(s.kube, e.key).(allocationId := Some(alloc), publicIp := Some(publicIp));
    WriteOk(c, s, e.key, status, o);
    var s' := AfterEipRecord(s, o, e, alloc, publicIp).value;
    RecordTask(c, s, o, e, status, s');
    Advance(c, s, s.(kube := Kube.WriteStatus(s.kube, e.key, status)), s', o);
  }

  lemma RecordTask(c: Config, s: State, o: Owner, e: Eip, status: Status, s': State)
    requires o == EipOwner(e.key) && Applying(c, s, e)
    requires s' == Goto(s, o, EipList(e)).(kube := Kube.WriteStatus(s.kube, e.key, status))
    ensures TaskNow(c, s', o)
  {
  }

  lemma ListStep(c: Config, s: State, o: Owner, e: Eip)
    requires Inv(c, s) && s.phase.Running? && TaskOk(c, s, o, EipList(e))
    ensures Inv(c, AfterEipList(s, o, e).value)
  {
    CurrentClaimIsListed(c, s, e);
    ListTask(c, s, o, e);
    AdvanceQuietly(c, s, AfterEipList(s, o, e).value, o);
  }

  /** A pod that claims the Eip exists, so a current copy finds it listed. */
  lemma CurrentClaimIsListed(c: Config, s: State, e: Eip)
    requires StoreInv(c, s) && e in s.kube.eipLog
    ensures !Outdated(s, e) ==> !Stray(e, Kube.Resources(s.kube, e))
  {
    hide WatchOk, AwsOk, OnePerUid;
    if e.selector.PodSelector? && Current(s, e) {
      CasCurrent(s.kube, e);
      assert StatusOk(c, e) && PodClaimOk(s, e.key);
    }
  }

  lemma ListTask(c: Config, s: State, o: Owner, e: Eip)
    requires TaskOk(c, s, o, EipList(e))
    requires Stray(e, Kube.Resources(s.kube, e)) ==> Outdated(s, e)
    ensures TaskNow(c, AfterEipList(s, o, e).value, o)
  {
  }

  lemma DisassociateStep(c: Config, s: State, o: Owner, e: Eip, listed: set<string>)
    requires Inv(c, s) && s.phase.Running? && TaskOk(c, s, o, EipDisassociate(e, listed))
    ensures Inv(c, AfterEipDisassociate(s, o, e, listed).value)
  {
    var id := e.AssociationId().value;
    DropAssociation(c, s, id, o);
    Advance(c, s, s.(aws := Aws.Disassociate(s.aws, id)), AfterEipDisassociate(s, o, e, listed).value, o);
  }

  lemma DropAssociation(c: Config, s: State, id: nat, o: Owner)
    requires StoreInv(c, s)
    ensures StoreInv(c, s.(aws := Aws.Disassociate(s.aws, id)))
    ensures RelyOthers(s, s.(aws := Aws.Disassociate(s.aws, id)), o)
  {
    DisassociateInv(c, s, id);
    forall p | p != o ensures Rely(s, s.(aws := Aws.Disassociate(s.aws, id)), p) {
      DisassociateRely(s, id, p);
    }
  }

  /** Detaching from a logged copy: refused, or the current object loses its claim. */
  lemma DetachOk(c: Config, s: State, e: Eip, o: Owner)
    requires StoreInv(c, s) && e in s.kube.eipLog && Kube.SetStatusDetached(s.kube, e).Ok?
    ensures e.key in s.kube.eips && s.kube.eips[e.key] == e
    ensures StoreInv(c, s.(kube := Kube.SetStatusDetached(s.kube, e).value))
    ensures RelyOthers(s, s.(kube := Kube.SetStatusDetached(s.kube, e).value), o)
  {
    CasCurrent(s.kube, e);
    assert StatusOk(c, e) && AllocationOk(s, e);
    WriteOk(c, s, e.key, Kube.Cleared(e.status.value), o);
  }

  lemma DetachStep(c: Config, s: State, o: Owner, e: Eip, listed: set<string>)
    requires Inv(c, s) && s.phase.Running? && TaskOk(c, s, o, EipDetach(e, listed))
    ensures Inv(c, AfterEipDetach(s, o, e, listed).value)
  {
    var s' := AfterEipDetach(s, o, e, listed).value;
    if Kube.SetStatusDetached(s.kube, e).Ok? {
      DetachOk(c, s, e, o);
      DetachTask(c, s, o, e, listed);
      Advance(c, s, s.(kube := Kube.SetStatusDetached(s.kube, e).value), s', o);
    } else {
      AdvanceQuietly(c, s, s', o);
    }
  }

  lemma DetachTask(c: Config, s: State, o: Owner, e: Eip, listed: set<string>)
    requires TaskOk(c, s, o, EipDetach(e, listed)) && Kube.SetStatusDetached(s.kube, e).Ok?
    ensures TaskNow(c, AfterEipDetach(s, o, e, listed).value, o)
  {
  }

  // ---- Eip cleanup ----

  lemma SweepStepOk(c: Config, s: State, o: Owner, e: Eip, choice: Choice)
    requires Inv(c, s) && s.phase.Running? && TaskOk(c, s, o, EipSweep(e)) && AfterEipSweep(s, o, e, choice).Some?
    ensures Inv(c, AfterEipSweep(s, o, e, choice).value)
  {
    var found := Described(s.aws, choice.found);
    assert Remaining(s, e.uid, found) by {
      forall x | x in s.aws.addrs && s.aws.addrs[x].uid == e.uid
        ensures exists i :: 0 <= i < |found| && found[i].0 == x
      {
        var i :| 0 <= i < |choice.found| && choice.found[i] == x;
        assert found[i].0 == x;
      }
    }
    AdvanceQuietly(c, s, AfterEipSweep(s, o, e, choice).value, o);
  }

  lemma ReleaseStep(c: Config, s: State, o: Owner, e: Eip, found: seq<(nat, Option<nat>)>)
    requires Inv(c, s) && s.phase.Running? && TaskOk(c, s, o, EipRelease(e, found))
    ensures Inv(c, AfterEipRelease(s, o, e, found).value)
  {
    var s' := AfterEipRelease(s, o, e, found).value;
    ReleaseTask(c, s, o, e, found);
    if found != [] && found[0].1.Some? {
      DropFirst(c, s, o, e, found);
    } else if found != [] && Aws.Release(s.aws, found[0].0).Ok? {
      ReleaseAddress(c, s, o, e, found[0].0);
      Advance(c, s, s.(aws := Aws.Release(s.aws, found[0].0).value), s', o);
    } else {
      AdvanceQuietly(c, s, s', o);
    }
  }

  lemma DropFirst(c: Config, s: State, o: Owner, e: Eip, found: seq<(nat, Option<nat>)>)
    requires Inv(c, s) && s.phase.Running? && found != [] && found[0].1.Some?
    requires TaskNow(c, AfterEipRelease(s, o, e, found).value, o)
    ensures Inv(c, AfterEipRelease(s, o, e, found).value)
  {
    DropAssociation(c, s, found[0].1.value, o);
    Advance(c, s, s.(aws := Aws.Disassociate(s.aws, found[0].1.value)), AfterEipRelease(s, o, e, found).value, o);
  }

  lemma ReleaseTask(c: Config, s: State, o: Owner, e: Eip, found: seq<(nat, Option<nat>)>)
    requires TaskOk(c, s, o, EipRelease(e, found))
    ensures TaskNow(c, AfterEipRelease(s, o, e, found).value, o)
  {
    var s' := AfterEipRelease(s, o, e, found).value;
    if found != [] && found[0].1.Some? {
      HeadDropped(s, e.uid, found, s');
    } else if found != [] && Aws.Release(s.aws, found[0].0).Ok? {
      HeadReleased(s, e.uid, found, s');
    }
  }

  lemma ReleaseAddress(c: Config, s: State, o: Owner, e: Eip, alloc: nat)
    requires StoreInv(c, s) && Cleaning(s, e) && o == EipOwner(e.key)
    requires alloc in s.aws.issued && s.aws.issued[alloc] == e.uid && Aws.Release(s.aws, alloc).Ok?
    ensures StoreInv(c, s.(aws := Aws.Release(s.aws, alloc).value))
    ensures RelyOthers(s, s.(aws := Aws.Release(s.aws, alloc).value), o)
  {
    ReleaseInv(c, s, alloc);
    forall p | p != o ensures Rely(s, s.(aws := Aws.Release(s.aws, alloc).value), p) {
      ReleaseRely(s, alloc, p, e.key);
    }
  }

  lemma HeadDropped(s: State, uid: nat, found: seq<(nat, Option<nat>)>, s': State)
    requires Remaining(s, uid, found) && found != [] && found[0].1.Some?
    requires s'.aws == Aws.Disassociate(s.aws, found[0].1.value)
    ensures Remaining(s', uid, [(found[0].0, None)] + found[1..])
  {
    var rest := [(found[0].0, None)] + found[1..];
    forall x | x in s'.aws.addrs && s'.aws.addrs[x].uid == uid ensures exists i :: 0 <= i < |rest| && rest[i].0 == x {
      var i :| 0 <= i < |found| && found[i].0 == x;
      assert rest[i].0 == x;
    }
  }

  lemma HeadReleased(s: State, uid: nat, found: seq<(nat, Option<nat>)>, s': State)
    requires Remaining(s, uid, found) && found != [] && Aws.Release(s.aws, found[0].0).Ok?
    requires s'.aws == Aws.Release(s.aws, found[0].0).value
    ensures Remaining(s', uid, found[1..])
  {
    forall x | x in s'.aws.addrs && s'.aws.addrs[x].uid == uid
      ensures exists i :: 0 <= i < |found[1..]| && found[1..][i].0 == x
    {
      var i :| 0 <= i < |found| && found[i].0 == x;
      assert found[1..][i - 1].0 == x;
    }
  }

  lemma FinalizeStep(c: Config, s: State, o: Owner, e: Eip)
    requires Inv(c, s) && s.phase.Running? && TaskOk(c, s, o, EipFinalize(e))
    ensures Inv(c, AfterEipFinalize(s, o, e).value)
  {
    var s' := AfterEipFinalize(s, o, e).value;
    if e.key in s.kube.eips && s.kube.eips[e.key].uid == e.uid {
      RemoveInv(c, s, e.key);
      forall p | p != o ensures Rely(s, Remove(s, e.key), p) {
        RemoveRely(s, e.key, p);
      }
      Advance(c, s, Remove(s, e.key), s', o);
    } else {
      AdvanceQuietly(c, s, s', o);
    }
  }

  lemma EipFindStep(c: Config, s: State, o: Owner, t: Task, choice: Choice)
    requires Inv(c, s) && s.phase.Running? && TaskOk(c, s, o, t)
    requires (t.EipDescribe? || t.EipAllocate? || t.EipRecord?) && RunTask(c, s, o, t, choice).Some?
    ensures Inv(c, RunTask(c, s, o, t, choice).value)
  {
    hide Inv, StoreInv, TasksOk, PhaseOk, TaskOk, AfterEipDescribe, AfterEipAllocate, AfterEipRecord, AfterEipList,
         AfterEipDisassociate, AfterEipDetach, AfterEipSweep, AfterEipRelease, AfterEipFinalize, AfterPodCreateEip,
         AfterPodLocate, AfterPodList, AfterNodeList, AfterNotReady, AfterDescribe, AfterNodeLocate, AfterClaim,
         AfterAssociate, AfterRecordAssociation, AfterPodAnnotate, AfterCleanupList, AfterCleanupDescribe,
         AfterCleanupDisassociate, AfterCleanupDetach, AfterCleanupTail, AfterFinalize;
    match t {
      case EipDescribe(e) => DescribeStep(c, s, o, e, choice);
      case EipAllocate(e) => AllocateStep(c, s, o, e, choice);
      case EipRecord(e, alloc, publicIp) => RecordStep(c, s, o, e, alloc, publicIp);
      case _ =>
    }
  }

  lemma EipCheckStep(c: Config, s: State, o: Owner, t: Task, choice: Choice)
    requires Inv(c, s) && s.phase.Running? && TaskOk(c, s, o, t)
    requires (t.EipList? || t.EipDisassociate? || t.EipDetach? || t.EipRefresh?) && RunTask(c, s, o, t, choice).Some?
    ensures Inv(c, RunTask(c, s, o, t, choice).value)
  {
    hide Inv, StoreInv, TasksOk, PhaseOk, TaskOk, AfterEipDescribe, AfterEipAllocate, AfterEipRecord, AfterEipList,
         AfterEipDisassociate, AfterEipDetach, AfterEipSweep, AfterEipRelease, AfterEipFinalize, AfterPodCreateEip,
         AfterPodLocate, AfterPodList, AfterNodeList, AfterNotReady, AfterDescribe, AfterNodeLocate, AfterClaim,
         AfterAssociate, AfterRecordAssociation, AfterPodAnnotate, AfterCleanupList, AfterCleanupDescribe,
         AfterCleanupDisassociate, AfterCleanupDetach, AfterCleanupTail, AfterFinalize;
    match t {
      case EipList(e) => ListStep(c, s, o, e);
      case EipDisassociate(e, listed) => DisassociateStep(c, s, o, e, listed);
      case EipDetach(e, listed) => DetachStep(c, s, o, e, listed);
      case EipRefresh(_, _) => EndQuietly(c, s, o);
      case _ =>
    }
  }

  lemma EipApplyStep(c: Config, s: State, o: Owner, t: Task, choice: Choice)
    requires Inv(c, s) && s.phase.Running? && TaskOk(c, s, o, t)
    requires EipTask(t) && !t.EipSweep? && !t.EipRelease? && !t.EipFinalize? && RunTask(c, s, o, t, choice).Some?
    ensures Inv(c, RunTask(c, s, o, t, choice).value)
  {
    hide Inv, TaskOk, RunTask;
    if t.EipDescribe? || t.EipAllocate? || t.EipRecord? {
      EipFindStep(c, s, o, t, choice);
    } else {
      EipCheckStep(c, s, o, t, choice);
    }
  }

  lemma EipCleanupStep(c: Config, s: State, o: Owner, t: Task, choice: Choice)
    requires Inv(c, s) && s.phase.Running? && TaskOk(c, s, o, t)
    requires (t.EipSweep? || t.EipRelease? || t.EipFinalize?) && RunTask(c, s, o, t, choice).Some?
    ensures Inv(c, RunTask(c, s, o, t, choice).value)
  {
    hide Inv, StoreInv, TasksOk, PhaseOk, TaskOk, AfterEipSweep, AfterEipRelease, AfterEipFinalize, AfterEipDescribe,
         AfterEipAllocate, AfterEipRecord, AfterEipList, AfterEipDisassociate, AfterEipDetach, AfterPodCreateEip,
         AfterPodLocate, AfterPodList, AfterNodeList, AfterNotReady, AfterDescribe, AfterNodeLocate, AfterClaim,
         AfterAssociate, AfterRecordAssociation, AfterPodAnnotate, AfterCleanupList, AfterCleanupDescribe,
         AfterCleanupDisassociate, AfterCleanupDetach, AfterCleanupTail, AfterFinalize;
    match t {
      case EipSweep(e) => SweepStepOk(c, s, o, e, choice);
      case EipRelease(e, found) => ReleaseStep(c, s, o, e, found);
      case EipFinalize(e) => FinalizeStep(c, s, o, e);
      case _ =>
    }
  }
}
