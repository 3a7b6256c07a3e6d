/**
 An address is at a pod only while the pod claims its Eip: in every state of every run. For nodes this does not
 hold.
 */
module PodAddresses {
  import opened Base
  import opened Protocol
  import opened Invariants
  import opened Runs
  import opened Calls
  import opened EipSteps
  import Safety
  import Kube
  import Aws

  // ---- What has to be known of the addresses and of the tasks ----

  /** While a pod's Eip is not claimed, its address is on no interface; nor is any address it may yet record. */
  ghost predicate LooseUnlessClaimed(s: State, key: Key) {
    key in s.kube.eips && s.kube.eips[key].selector.PodSelector? && s.kube.eips[key].ResourceId() == None ==>
      forall x :: MayRecord(s, s.kube.eips[key], x) ==> s.aws.addrs[x].association == None
  }

  /** The address is the Eip's, recorded or still to be recorded. */
  ghost predicate MayRecord(s: State, e: Eip, x: nat) {
    x in s.aws.addrs && s.aws.addrs[x].uid == e.uid && (e.AllocationId() == None || e.AllocationId() == Some(x))
  }

  /** A pod's reconcile that is about to move an address still holds the claim, if the Eip is there. */
  ghost predicate HoldsClaim(s: State, t: Task) {
    && t.Associate? && t.actor.PodActor? && t.eip.key in s.kube.eips && s.kube.eips[t.eip.key].uid == t.eip.uid
    ==> s.kube.eips[t.eip.key].ResourceId() == Some(t.actor.pod.key.name)
  }

  ghost predicate PodInv(s: State) {
    && (forall key {:trigger LooseUnlessClaimed(s, key)} :: key in s.kube.eips ==> LooseUnlessClaimed(s, key))
    && (forall o {:trigger HoldsClaim(s, s.tasks[o])} :: o in s.tasks ==> HoldsClaim(s, s.tasks[o]))
  }

  // ---- Which calls lead to an associate ----

  predicate EipEnd(t: Task) {
    t.EipRefresh? || t.EipSweep? || t.EipRelease? || t.EipFinalize?
  }

  predicate PodFinding(t: Task) {
    t.PodCreateEip? || t.PodLocate? || t.PodList?
  }

  predicate Finding(t: Task) {
    t.NodeList? || t.NotReady? || t.Describe? || t.NodeLocate?
  }

  predicate CleanupEnd(t: Task) {
    t.CleanupDetach? || t.CleanupTail? || t.Finalize?
  }

  /** The call leaves other owners' tasks alone, and its own next call is an associate only if it has just made
      the claim. */
  ghost predicate GoodTasks(c: Config, s: State, o: Owner, t: Task, choice: Choice) {
    RunTask(c, s, o, t, choice).Some? ==>
      var s' := RunTask(c, s, o, t, choice).value;
      OthersKept(s, s', o) && (o in s'.tasks ==> HoldsClaim(s', s'.tasks[o]))
  }

  /** Its next call is no associate. */
  ghost predicate GoesElsewhere(c: Config, s: State, o: Owner, t: Task, choice: Choice) {
    RunTask(c, s, o, t, choice).Some? ==>
      var s' := RunTask(c, s, o, t, choice).value;
      OthersKept(s, s', o) && (o in s'.tasks ==> !s'.tasks[o].Associate?)
  }

  /** Objects are stored under their own keys. */
  ghost predicate Keyed(s: State) {
    forall key :: key in s.kube.eips ==> s.kube.eips[key].key == key
  }

  lemma AreKeyed(c: Config, s: State)
    requires Inv(c, s)
    ensures Keyed(s)
  {
    hide StoreInv, PhaseOk, TasksOk;
    Safety.CurrentKeys(c, s);
  }

  lemma EipApplyTasks(c: Config, s: State, o: Owner, t: Task, choice: Choice)
    requires EipTask(t) && !EipEnd(t)
    ensures GoesElsewhere(c, s, o, t, choice)
  {
    hide AfterPodCreateEip, AfterPodLocate, AfterPodList, AfterNodeList, AfterNotReady, AfterDescribe,
         AfterNodeLocate, AfterClaim, AfterAssociate, AfterRecordAssociation, AfterPodAnnotate, AfterCleanupList,
         AfterCleanupDescribe, AfterCleanupDisassociate, AfterCleanupDetach, AfterCleanupTail, AfterFinalize,
         AfterEipSweep, AfterEipRelease, AfterEipFinalize;
    hide Effect, Kube.WriteStatus, Kube.Resources, Aws.Disassociate, Aws.Allocate, Aws.Tagged, Dropped, Finalized,
         Described;
  }

  lemma EipEndTasks(c: Config, s: State, o: Owner, t: Task, choice: Choice)
    requires EipEnd(t)
    ensures GoesElsewhere(c, s, o, t, choice)
  {
    hide AfterPodCreateEip, AfterPodLocate, AfterPodList, AfterNodeList, AfterNotReady, AfterDescribe,
         AfterNodeLocate, AfterClaim, AfterAssociate, AfterRecordAssociation, AfterPodAnnotate, AfterCleanupList,
         AfterCleanupDescribe, AfterCleanupDisassociate, AfterCleanupDetach, AfterCleanupTail, AfterFinalize,
         AfterEipDescribe, AfterEipAllocate, AfterEipRecord, AfterEipList, AfterEipDisassociate, AfterEipDetach;
    hide Effect, Kube.WriteStatus, Kube.Resources, Aws.Disassociate, Aws.Allocate, Aws.Tagged, Dropped, Finalized,
         Described;
  }

  lemma PodFindingTasks(c: Config, s: State, o: Owner, t: Task, choice: Choice)
    requires PodFinding(t)
    ensures GoesElsewhere(c, s, o, t, choice)
  {
    hide AfterEipDescribe, AfterEipAllocate, AfterEipRecord, AfterEipList, AfterEipDisassociate, AfterEipDetach,
         AfterEipSweep, AfterEipRelease, AfterEipFinalize, AfterClaim, AfterAssociate, AfterRecordAssociation,
         AfterPodAnnotate, AfterCleanupList, AfterCleanupDescribe, AfterCleanupDisassociate, AfterCleanupDetach,
         AfterCleanupTail, AfterFinalize, AfterNodeList, AfterNotReady, AfterDescribe, AfterNodeLocate;
    hide Effect, Kube.WriteStatus, MatchingPod, MatchingNode, Kube.CreateForPod, Kube.Lists, Kube.Select,
         Kube.FirstFree, InstanceId;
  }

  lemma NodeFindingTasks(c: Config, s: State, o: Owner, t: Task, choice: Choice)
    requires Finding(t)
    ensures GoesElsewhere(c, s, o, t, choice)
  {
    hide AfterEipDescribe, AfterEipAllocate, AfterEipRecord, AfterEipList, AfterEipDisassociate, AfterEipDetach,
         AfterEipSweep, AfterEipRelease, AfterEipFinalize, AfterClaim, AfterAssociate, AfterRecordAssociation,
         AfterPodAnnotate, AfterCleanupList, AfterCleanupDescribe, AfterCleanupDisassociate, AfterCleanupDetach,
         AfterCleanupTail, AfterFinalize, AfterPodCreateEip, AfterPodLocate, AfterPodList;
    hide Effect, Kube.WriteStatus, MatchingPod, MatchingNode, Kube.CreateForPod, Kube.Lists, Kube.Select,
         Kube.FirstFree, InstanceId;
  }

  lemma TakingTasks(c: Config, s: State, o: Owner, t: Task, choice: Choice)
    requires t.Associate? || t.RecordAssociation? || t.PodAnnotate?
    ensures GoesElsewhere(c, s, o, t, choice)
  {
    hide AfterEipDescribe, AfterEipAllocate, AfterEipRecord, AfterEipList, AfterEipDisassociate, AfterEipDetach,
         AfterEipSweep, AfterEipRelease, AfterEipFinalize, AfterPodCreateEip, AfterPodLocate, AfterPodList,
         AfterNodeList, AfterNotReady, AfterDescribe, AfterNodeLocate, AfterClaim, AfterCleanupList,
         AfterCleanupDescribe, AfterCleanupDisassociate, AfterCleanupDetach, AfterCleanupTail, AfterFinalize;
    hide Effect, Kube.WriteStatus, Kube.Annotate, Attached;
  }

  lemma CleanupTasks(c: Config, s: State, o: Owner, t: Task, choice: Choice)
    requires CleanupTask(t) && !CleanupEnd(t)
    ensures GoesElsewhere(c, s, o, t, choice)
  {
    hide AfterEipDescribe, AfterEipAllocate, AfterEipRecord, AfterEipList, AfterEipDisassociate, AfterEipDetach,
         AfterEipSweep, AfterEipRelease, AfterEipFinalize, AfterPodCreateEip, AfterPodLocate, AfterPodList,
         AfterNodeList, AfterNotReady, AfterDescribe, AfterNodeLocate, AfterClaim, AfterAssociate,
         AfterRecordAssociation, AfterPodAnnotate, AfterCleanupDetach, AfterCleanupTail, AfterFinalize;
    hide Effect, Kube.WriteStatus, Kube.Lists, Kube.Select, Aws.Disassociate, Tail, Gone, Claimed;
  }

  lemma CleanupEndTasks(c: Config, s: State, o: Owner, t: Task, choice: Choice)
    requires CleanupEnd(t)
    ensures GoesElsewhere(c, s, o, t, choice)
  {
    hide AfterEipDescribe, AfterEipAllocate, AfterEipRecord, AfterEipList, AfterEipDisassociate, AfterEipDetach,
         AfterEipSweep, AfterEipRelease, AfterEipFinalize, AfterPodCreateEip, AfterPodLocate, AfterPodList,
         AfterNodeList, AfterNotReady, AfterDescribe, AfterNodeLocate, AfterClaim, AfterAssociate,
         AfterRecordAssociation, AfterPodAnnotate, AfterCleanupList, AfterCleanupDescribe, AfterCleanupDisassociate;
    hide Effect, Kube.WriteStatus, Kube.Lists, Kube.Select, Aws.Disassociate, Tail, Gone, Claimed;
  }

  lemma ClaimHolds(s: State, o: Owner, actor: Actor, e: Eip, address: Address, eni: string)
    requires Keyed(s) && AfterClaim(s, o, actor, e, address, eni).Some?
    ensures var s' := AfterClaim(s, o, actor, e, address, eni).value;
            OthersKept(s, s', o) && (o in s'.tasks ==> HoldsClaim(s', s'.tasks[o]))
  {
  }

  lemma ClaimTasks(c: Config, s: State, o: Owner, t: Task, choice: Choice)
    requires t.Claim? && Keyed(s)
    ensures GoodTasks(c, s, o, t, choice)
  {
    hide Keyed, HoldsClaim, OthersKept, AfterClaim;
    if RunTask(c, s, o, t, choice).Some? {
      ClaimHolds(s, o, t.actor, t.eip, t.address, t.eni);
    }
  }

  lemma CallTasks(c: Config, s: State, o: Owner, t: Task, choice: Choice)
    requires Keyed(s)
    ensures GoodTasks(c, s, o, t, choice)
  {
    hide Keyed, RunTask, OthersKept;
    if EipEnd(t) {
      EipEndTasks(c, s, o, t, choice);
    } else if EipTask(t) {
      EipApplyTasks(c, s, o, t, choice);
    } else if CleanupEnd(t) {
      CleanupEndTasks(c, s, o, t, choice);
    } else if CleanupTask(t) {
      CleanupTasks(c, s, o, t, choice);
    } else if PodFinding(t) {
      PodFindingTasks(c, s, o, t, choice);
    } else if Finding(t) {
      NodeFindingTasks(c, s, o, t, choice);
    } else if t.Claim? {
      ClaimTasks(c, s, o, t, choice);
    } else {
      TakingTasks(c, s, o, t, choice);
    }
  }

  // ---- What a step does to an Eip that stays ----

  /** The same object before and after: its selector stays, and so does an allocation. */
  lemma SameObject(c: Config, s: State, s': State, key: Key)
    requires StoreInv(c, s) && StoreInv(c, s') && s.kube.eipLog <= s'.kube.eipLog && Safety.SameEip(s, s', key)
    ensures Grows(s.kube.eips[key], s'.kube.eips[key])
  {
    hide AwsOk, OnePerUid, LinksOk, WatchOk, PodsOk;
    assert UpTo(s.kube.eips[key], s'.kube.eips[key]) && Grows(s.kube.eips[key], s'.kube.eips[key]);
  }

  /** A copy and the current object with its uid are the same Eip. */
  lemma SameAsCopy(c: Config, s: State, e: Eip, key: Key)
    requires StoreInv(c, s) && e in s.kube.eipLog && key in s.kube.eips && s.kube.eips[key].uid == e.uid
    ensures e.key == key && Grows(e, s.kube.eips[key]) && e.uid < s.kube.next
  {
    hide AwsOk, OnePerUid, LinksOk, WatchOk, PodsOk;
    assert UpTo(e, s.kube.eips[key]) && Grows(e, s.kube.eips[key]);
  }

  lemma AddressUids(c: Config, s: State, x: nat)
    requires StoreInv(c, s) && x in s.aws.addrs
    ensures s.aws.addrs[x].uid < s.kube.next
  {
    hide CurrentOk, AwsOk, OnePerUid, WatchOk, PodsOk;
    assert Owned(c, s, x);
  }

  // ---- Calls ----

  /** A call associates an address only as an associate call of a task that works on it. */
  lemma CallAssociates(a: Aws.Cloud, t: Task, choice: Choice, x: nat)
    requires x in AwsAfter(a, t, choice).addrs && AwsAfter(a, t, choice).addrs[x].association.Some?
    requires t.EipAllocate? ==> a.next !in a.addrs
    ensures x in a.addrs && AwsAfter(a, t, choice).addrs[x].uid == a.addrs[x].uid
    ensures a.addrs[x].association.Some? || (t.Associate? && t.eip.AllocationId() == Some(x))
  {
  }

  /** The address that a pod's or a node's task works on is not that of an unclaimed Eip of a pod. */
  lemma AssociateIsClaimed(c: Config, s: State, o: Owner, t: Task, key: Key, x: nat)
    requires StoreInv(c, s) && TaskOk(c, s, o, t) && HoldsClaim(s, t) && t.Associate? && t.eip.AllocationId() == Some(x)
    requires x in s.aws.addrs && key in s.kube.eips && s.kube.eips[key].uid == s.aws.addrs[x].uid
    requires s.kube.eips[key].selector.PodSelector?
    ensures s.kube.eips[key].ResourceId().Some?
  {
    hide LogOk, CurrentOk, OnePerUid, WatchOk, PodsOk;
    assert AllocationOk(s, t.eip);
    SameAsCopy(c, s, t.eip, key);
  }

  /** The claim of a pod is withdrawn only when its address is loose. */
  lemma WithdrawnIsLoose(c: Config, s: State, o: Owner, t: Task, e: Eip, x: nat)
    requires TaskOk(c, s, o, t) && e.selector.PodSelector? && Safety.ReleasesFrom(t, e, e.selector.podName)
    requires MayRecord(s, e, x)
    ensures t.CleanupDetach? && Mine(t.actor.Owner(), e) && t.actor.Owner() == o && s.aws.addrs[x].association == None
  {
    hide Covered, ActorCleaning;
    if t.CleanupDetach? {
      assert Target(c, s, t.actor, t.todo[0]);
    }
  }

  ghost predicate Called(c: Config, s: State, o: Owner, choice: Choice, s': State) {
    && Inv(c, s) && PodInv(s) && Inv(c, s') && o in s.tasks && RunTask(c, s, o, s.tasks[o], choice) == Some(s')
    && s'.kube == KubeAfter(s.kube, s.tasks[o]) && s'.aws == AwsAfter(s.aws, s.tasks[o], choice)
    && s.kube.eipLog <= s'.kube.eipLog
  }

  lemma CallKeepsLoose(c: Config, s: State, o: Owner, choice: Choice, s': State, key: Key)
    requires Called(c, s, o, choice, s') && key in s'.kube.eips
    ensures LooseUnlessClaimed(s', key)
  {
    hide StoreInv, PhaseOk, TaskOk, KubeAfter, AwsAfter, RunTask, HoldsClaim, Safety.ReleasesFrom, Safety.ClaimsBy;
    var e' := s'.kube.eips[key];
    var t := s.tasks[o];
    assert TaskOk(c, s, o, t) && HoldsClaim(s, t);
    if e'.selector.PodSelector? && e'.ResourceId() == None {
      forall x | MayRecord(s', e', x) && s'.aws.addrs[x].association.Some? ensures false {
        FreshAllocation(c, s);
        CallAssociates(s.aws, t, choice, x);
        AddressUids(c, s, x);
        Safety.CurrentKeys(c, s);
        Safety.UidsCall(s.kube, t);
        assert key in s.kube.eips && s.kube.eips[key].uid == e'.uid;
        SameObject(c, s, s', key);
        StayedLoose(c, s, o, choice, s', key, x);
      }
    }
  }

  lemma FreshAllocation(c: Config, s: State)
    requires StoreInv(c, s)
    ensures s.aws.next !in s.aws.addrs
  {
    hide LogOk, CurrentOk, OnePerUid, LinksOk, WatchOk, PodsOk;
  }

  lemma StayedLoose(c: Config, s: State, o: Owner, choice: Choice, s': State, key: Key, x: nat)
    requires Called(c, s, o, choice, s') && key in s'.kube.eips && key in s.kube.eips
    requires Grows(s.kube.eips[key], s'.kube.eips[key]) && s.kube.eips[key].uid == s'.kube.eips[key].uid
    requires s'.kube.eips[key].selector.PodSelector? && s'.kube.eips[key].ResourceId() == None
    requires MayRecord(s', s'.kube.eips[key], x) && x in s.aws.addrs && s'.aws.addrs[x].uid == s.aws.addrs[x].uid
    requires s'.aws.addrs[x].association.Some?
    ensures s.aws.addrs[x].association == None && !(s.tasks[o].Associate? && s.tasks[o].eip.AllocationId() == Some(x))
  {
    hide StoreInv, PhaseOk, TaskOk, KubeAfter, AwsAfter, RunTask, HoldsClaim, Safety.ReleasesFrom, Safety.ClaimsBy;
    var t, e := s.tasks[o], s.kube.eips[key];
    assert TaskOk(c, s, o, t) && HoldsClaim(s, t) && LooseUnlessClaimed(s, key);
    assert MayRecord(s, e, x);
    if e.ResourceId() == None {
      if t.Associate? && t.eip.AllocationId() == Some(x) {
        AssociateIsClaimed(c, s, o, t, key, x);
      }
    } else {
      Safety.ClaimChange(c, s, o, t, key);
      PodClaimName(c, s, key);
      WithdrawnIsLoose(c, s, o, t, e, x);
    }
  }

  lemma PodClaimName(c: Config, s: State, key: Key)
    requires StoreInv(c, s) && key in s.kube.eips && s.kube.eips[key].selector.PodSelector?
    requires s.kube.eips[key].ResourceId().Some?
    ensures s.kube.eips[key].ResourceId().value == s.kube.eips[key].selector.podName && s.kube.eips[key].key == key
  {
    hide LogOk, AwsOk, OnePerUid, WatchOk, PodsOk;
    assert StatusOk(c, s.kube.eips[key]);
  }

  /** A claim that another task has made stays made: only the pod's own tasks withdraw it, one at a time. */
  lemma CallKeepsOthers(c: Config, s: State, o: Owner, choice: Choice, s': State, p: Owner)
    requires Called(c, s, o, choice, s') && p in s.tasks && p != o
    ensures HoldsClaim(s', s.tasks[p])
  {
    hide StoreInv, PhaseOk, KubeAfter, AwsAfter, RunTask, Safety.ReleasesFrom, Safety.ClaimsBy;
    var t, t2 := s.tasks[o], s.tasks[p];
    assert TaskOk(c, s, o, t) && TaskOk(c, s, p, t2) && HoldsClaim(s, t2);
    if t2.Associate? && t2.actor.PodActor? && t2.eip.key in s'.kube.eips && s'.kube.eips[t2.eip.key].uid == t2.eip.uid {
      var key := t2.eip.key;
      SameAsCopy(c, s', t2.eip, key);
      Safety.CurrentKeys(c, s);
      Safety.UidsCall(s.kube, t);
      CopyUid(c, s, t2.eip);
      assert key in s.kube.eips && s.kube.eips[key].uid == t2.eip.uid;
      SameAsCopy(c, s, t2.eip, key);
      Safety.ClaimChange(c, s, o, t, key);
      if s'.kube.eips[key].ResourceId() != s.kube.eips[key].ResourceId() {
        NotByOther(c, s, o, t, s.kube.eips[key], p);
      }
    }
  }

  lemma CopyUid(c: Config, s: State, e: Eip)
    requires StoreInv(c, s) && e in s.kube.eipLog
    ensures e.uid < s.kube.next
  {
  }

  lemma NotByOther(c: Config, s: State, o: Owner, t: Task, e: Eip, p: Owner)
    requires TaskOk(c, s, o, t) && e.selector.PodSelector? && p.PodOwner? && Mine(p, e) && o != p
    requires e.ResourceId().Some?
    ensures !Safety.ReleasesFrom(t, e, e.ResourceId().value)
  {
    hide Covered, ActorCleaning;
    if t.CleanupDetach? {
      assert Target(c, s, t.actor, t.todo[0]);
    }
  }

  lemma CallStep(c: Config, s: State, o: Owner, choice: Choice)
    requires Inv(c, s) && PodInv(s) && Next(c, s, Run(o, choice)).Some?
    ensures PodInv(Next(c, s, Run(o, choice)).value)
  {
    hide Inv, RunTask, KubeAfter, AwsAfter, LooseUnlessClaimed, HoldsClaim;
    var s' := Next(c, s, Run(o, choice)).value;
    InvStep(c, s, Run(o, choice));
    CallEffect(c, s, o, s.tasks[o], choice);
    Safety.LaterStep(c, s, Run(o, choice));
    assert Called(c, s, o, choice, s');
    AreKeyed(c, s);
    CallTasks(c, s, o, s.tasks[o], choice);
    forall key | key in s'.kube.eips ensures LooseUnlessClaimed(s', key) {
      CallKeepsLoose(c, s, o, choice, s', key);
    }
    forall p | p in s'.tasks ensures HoldsClaim(s', s'.tasks[p]) {
      if p != o {
        CallKeepsOthers(c, s, o, choice, s', p);
      }
    }
  }

  // ---- Other steps ----

  lemma OutsideKeeps(c: Config, s: State, step: Step, key: Key)
    requires Keyed(s) && Next(c, s, step).Some? && !step.Run? && key in Next(c, s, step).value.kube.eips
    ensures var e' := Next(c, s, step).value.kube.eips[key];
            (&& key in s.kube.eips && s.kube.eips[key].uid == e'.uid && s.kube.eips[key].selector == e'.selector
             && s.kube.eips[key].status == e'.status)
            || e'.uid >= s.kube.next
  {
    hide RunTask, OrphansOf;
  }

  lemma OutsideTasks(c: Config, s: State, step: Step, o: Owner)
    requires Next(c, s, step).Some? && !step.Run? && o in Next(c, s, step).value.tasks
    ensures var t := Next(c, s, step).value.tasks[o]; !t.Associate? || (o in s.tasks && s.tasks[o] == t)
  {
    hide RunTask, OrphansOf;
  }

  lemma OutsideAws(c: Config, s: State, step: Step)
    requires Inv(c, s) && Next(c, s, step).Some? && !step.Run?
    ensures Next(c, s, step).value.aws == s.aws
  {
    hide StoreInv, TasksOk, RunTask;
    if !step.SweepStep? {
      Safety.OutsideAws(c, s, step);
    }
  }

  lemma OutsideStep(c: Config, s: State, step: Step)
    requires Inv(c, s) && PodInv(s) && Next(c, s, step).Some? && !step.Run?
    ensures PodInv(Next(c, s, step).value)
  {
    hide Next, StoreInv, PhaseOk, TaskOk;
    var s' := Next(c, s, step).value;
    Safety.CurrentKeys(c, s);
    OutsideAws(c, s, step);
    forall key | key in s'.kube.eips ensures LooseUnlessClaimed(s', key) {
      OutsideKeeps(c, s, step, key);
      if key in s.kube.eips {
        assert LooseUnlessClaimed(s, key);
      }
      forall x | MayRecord(s', s'.kube.eips[key], x) ensures s.aws.addrs[x].uid < s.kube.next {
        AddressUids(c, s, x);
      }
      assert key in s.kube.eips ==> forall x :: MayRecord(s', s'.kube.eips[key], x) ==>
          MayRecord(s, s.kube.eips[key], x);
    }
    forall o | o in s'.tasks ensures HoldsClaim(s', s'.tasks[o]) {
      OutsideTasks(c, s, step, o);
      var t := s'.tasks[o];
      if t.Associate? && t.eip.key in s'.kube.eips {
        assert HoldsClaim(s, t) && TaskOk(c, s, o, t);
        CopyOf(c, s, o, t);
        CopyUid(c, s, t.eip);
        OutsideKeeps(c, s, step, t.eip.key);
      }
    }
  }

  lemma CopyOf(c: Config, s: State, o: Owner, t: Task)
    requires TaskOk(c, s, o, t) && t.Associate?
    ensures t.eip in s.kube.eipLog
  {
  }

  // ---- Every run ----

  lemma {:induction false} PodInvRun(c: Config, s: State, run: seq<Step>)
    requires Inv(c, s) && PodInv(s) && CanRun(c, s, run)
    ensures PodInv(After(c, s, run))
    decreases |run|
  {
    hide Next, Inv, PodInv;
    if run != [] {
      if run[0].Run? {
        CallStep(c, s, run[0].owner, run[0].choice);
      } else {
        OutsideStep(c, s, run[0]);
      }
      InvStep(c, s, run[0]);
      PodInvRun(c, Next(c, s, run[0]).value, run[1..]);
    }
  }

  lemma ReachablePodInv(c: Config, s: State)
    requires Reachable(c, s)
    ensures PodInv(s)
  {
    hide Next, Inv;
    InitInv(c);
    var run :| CanRun(c, Init(), run) && After(c, Init(), run) == s;
    PodInvRun(c, Init(), run);
  }

  /** In every reachable state, an Eip for a pod whose recorded address is on an interface is claimed by that
      pod. */
  lemma AttachedIsClaimed(c: Config, s: State, key: Key)
    requires Reachable(c, s) && key in s.kube.eips && s.kube.eips[key].selector.PodSelector?
    requires var x := s.kube.eips[key].AllocationId();
             x.Some? && x.value in s.aws.addrs && s.aws.addrs[x.value].association.Some?
    ensures s.kube.eips[key].ResourceId() == Some(s.kube.eips[key].selector.podName)
  {
    hide PhaseOk, TasksOk, LogOk, OnePerUid, WatchOk, PodsOk;
    ReachableInv(c, s);
    ReachablePodInv(c, s);
    var e := s.kube.eips[key];
    assert LooseUnlessClaimed(s, key) && AllocationOk(s, e) && StatusOk(c, e);
    assert MayRecord(s, e, e.AllocationId().value);
  }

  /** When a pod's cleanup has succeeded, no Eip that selects the pod has its recorded address on an interface,
      whatever has run since the cleanup took the addresses off. */
  lemma PodCleanupLoosens(c: Config, s: State, o: Owner, key: Key)
    requires Reachable(c, s) && o in s.tasks && s.tasks[o].Finalize? && s.tasks[o].actor.PodActor?
    requires key in s.kube.eips && key.ns == s.tasks[o].actor.pod.key.ns
    requires s.kube.eips[key].MatchesPod(s.tasks[o].actor.pod.key.name)
    requires s.kube.eips[key].AllocationId().Some? && s.kube.eips[key].AllocationId().value in s.aws.addrs
    ensures s.kube.eips[key].ResourceId() == None
    ensures s.aws.addrs[s.kube.eips[key].AllocationId().value].association == None
  {
    hide StoreInv, PhaseOk, TasksOk;
    ReachableInv(c, s);
    Safety.PodCleanupComplete(c, s, o, key);
    if s.kube.eips[key].ResourceId().Some? {
      PodClaimName(c, s, key);
    }
    if s.aws.addrs[s.kube.eips[key].AllocationId().value].association.Some? {
      AttachedIsClaimed(c, s, key);
    }
  }
}
