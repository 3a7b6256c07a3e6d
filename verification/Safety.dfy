/**
 The main results: what holds in every state and every step of every interleaved run, with stale
 copies, failed calls and crashes.
 */
module Safety {
  import opened Base
  import opened Protocol
  import opened Invariants
  import opened Interference
  import opened Effects
  import opened EipSteps
  import opened ActorSteps
  import opened Runs
  import opened Calls
  import Kube
  import Aws

  // ---- One address per Eip, and none without an Eip ----

  /** No two addresses are tagged with the same uid. */
  lemma OneAddressPerUid(c: Config, s: State, x: nat, y: nat)
    requires Reachable(c, s) && x in s.aws.addrs && y in s.aws.addrs && x != y
    ensures s.aws.addrs[x].uid != s.aws.addrs[y].uid
  {
    ReachableInv(c, s);
  }

  /** So the lookup by uid tag never returns two, and the error for that case is never raised. */
  lemma NeverTwoTagged(c: Config, s: State, uid: nat, found: seq<nat>)
    requires Reachable(c, s) && Aws.Tagged(s.aws, uid, found)
    ensures |found| <= 1
  {
    if |found| > 1 {
      OneAddressPerUid(c, s, found[0], found[1]);
    }
  }

  /** Every address belongs to an Eip that exists and still has its finalizer. */
  lemma NoLeak(c: Config, s: State, x: nat)
    requires Reachable(c, s) && x in s.aws.addrs
    ensures exists key :: key in s.kube.eips && s.kube.eips[key].uid == s.aws.addrs[x].uid
              && s.kube.eips[key].finalizer && key.ns == s.aws.addrs[x].ns
  {
    hide LogOk, CurrentOk, AwsOk, OnePerUid, WatchOk, PodsOk, TasksOk, PhaseOk;
    ReachableInv(c, s);
    assert Owned(c, s, x);
    assert s.kube.homes[s.aws.addrs[x].uid] in s.kube.eips;
  }

  /** When an Eip is gone, so is every address that carried its uid. */
  lemma NothingLeftBehind(c: Config, s: State, uid: nat)
    requires Reachable(c, s) && forall key :: key in s.kube.eips ==> s.kube.eips[key].uid != uid
    ensures NoAddress(s, uid)
  {
    forall x | x in s.aws.addrs ensures s.aws.addrs[x].uid != uid {
      NoLeak(c, s, x);
    }
  }

  /** The sweep at startup releases and disassociates nothing. */
  lemma SweepIsHarmless(c: Config, s: State)
    requires Reachable(c, s) && Next(c, s, SweepStep).Some?
    ensures Next(c, s, SweepStep).value.aws == s.aws
  {
    hide StoreInv, TasksOk, Start, Environment, RunTask;
    ReachableInv(c, s);
  }

  // ---- The allocation recorded in the status ----

  /** Until deletion starts, a recorded allocation is the one live address of the Eip; a claim needs one. */
  lemma AllocationNamesTheAddress(c: Config, s: State, key: Key)
    requires Reachable(c, s) && key in s.kube.eips && !s.kube.eips[key].deleting
    ensures var e := s.kube.eips[key];
            && (e.ResourceId().Some? ==> e.AllocationId().Some?)
            && (e.AllocationId().Some? ==>
                  var alloc := e.AllocationId().value;
                  && alloc in s.aws.addrs && s.aws.addrs[alloc].uid == e.uid
                  && e.status.value.publicIp == Some(s.aws.addrs[alloc].publicIp)
                  && forall x :: x in s.aws.addrs && s.aws.addrs[x].uid == e.uid ==> x == alloc)
  {
    hide LogOk, PodsOk, TasksOk, PhaseOk;
    ReachableInv(c, s);
    assert StatusOk(c, s.kube.eips[key]) && AllocationOk(s, s.kube.eips[key]);
  }

  /** Everything stored stays in the log, ids stay issued, and a cleanup that has begun stays begun. */
  ghost predicate Later(s: State, s': State) {
    && s.kube.eipLog <= s'.kube.eipLog
    && s.condemned <= s'.condemned
    && s.kube.next <= s'.kube.next
  }

  lemma LaterCall(k: Kube.Store, t: Task)
    ensures k.eipLog <= KubeAfter(k, t).eipLog && k.next <= KubeAfter(k, t).next
  {
  }

  lemma LaterStep(c: Config, s: State, step: Step)
    requires Next(c, s, step).Some?
    ensures Later(s, Next(c, s, step).value)
  {
    hide RunTask, OrphansOf, KubeAfter, AwsAfter;
    if step.Run? {
      CallEffect(c, s, step.owner, s.tasks[step.owner], step.choice);
      LaterCall(s.kube, s.tasks[step.owner]);
    }
  }

  lemma {:induction false} LaterOn(c: Config, s: State, run: seq<Step>)
    requires CanRun(c, s, run)
    ensures Later(s, After(c, s, run))
    decreases |run|
  {
    hide Next;
    if run != [] {
      LaterStep(c, s, run[0]);
      LaterOn(c, Next(c, s, run[0]).value, run[1..]);
    }
  }

  /** Once written, the allocation and its public IP never change, whatever happens. */
  lemma AllocationIsForever(c: Config, s: State, run: seq<Step>, key: Key)
    requires Reachable(c, s) && CanRun(c, s, run)
    requires key in s.kube.eips && key in After(c, s, run).kube.eips
    requires s.kube.eips[key].uid == After(c, s, run).kube.eips[key].uid
    requires s.kube.eips[key].AllocationId().Some?
    ensures var e, e' := s.kube.eips[key], After(c, s, run).kube.eips[key];
            e'.AllocationId() == e.AllocationId() && e'.status.value.publicIp == e.status.value.publicIp
  {
    hide AwsOk, OnePerUid, LinksOk, WatchOk, PodsOk, TasksOk, PhaseOk, Next;
    ReachableInv(c, s);
    LaterOn(c, s, run);
    InvRun(c, s, run);
    var e, e' := s.kube.eips[key], After(c, s, run).kube.eips[key];
    assert UpTo(e, e') && Grows(e, e');
  }

  // ---- Claims ----

  ghost predicate SameEip(s: State, s': State, key: Key) {
    key in s.kube.eips && key in s'.kube.eips && s.kube.eips[key].uid == s'.kube.eips[key].uid
  }

  /** The call by which resource `r` takes the Eip. */
  ghost predicate ClaimsBy(t: Task, e: Eip, r: string) {
    t.Claim? && t.actor.Name() == r && t.eip == e && Mine(t.actor.Owner(), e)
  }

  /** A call by which the claim of `r` on the Eip may be withdrawn: one of `r`'s own, or, for a node, one of
      the Eip's own reconcile, which found `r` missing from the listing. A pod's claim is never withdrawn
      by the Eip's reconcile: the pod can only be missing from the listing when the claim is no longer current. */
  ghost predicate ReleasesFrom(t: Task, e: Eip, r: string) {
    || (t.NotReady? && t.node.name == r && t.eip == e)
    || (t.CleanupDetach? && t.actor.Name() == r && t.todo != [] && t.todo[0] == e)
    || (t.EipDetach? && t.eip == e && e.selector.NodeSelector? && r !in t.listed)
  }

  /** A status write by name or by compare-and-swap leaves the claims of other Eips alone. */
  lemma OtherClaims(k: Kube.Store, written: Key, status: Status, key: Key)
    requires written in k.eips && k.eips[written].key == written && key in k.eips
    ensures key in Kube.WriteStatus(k, written, status).eips
    ensures var r' := Kube.WriteStatus(k, written, status).eips[key].ResourceId();
            r' == if key == written then status.resourceId else k.eips[key].ResourceId()
  {
  }

  lemma DetachChange(c: Config, s: State, e: Eip, key: Key)
    requires StoreInv(c, s) && e in s.kube.eipLog && key in s.kube.eips && Kube.SetStatusDetached(s.kube, e).Ok?
    ensures var k' := Kube.SetStatusDetached(s.kube, e).value;
            && key in k'.eips
            && (k'.eips[key].ResourceId() == s.kube.eips[key].ResourceId()
                || (s.kube.eips[key] == e && k'.eips[key].ResourceId() == None))
  {
    hide LinksOk, WatchOk, PodsOk, AwsOk, OnePerUid;
    CasCurrent(s.kube, e);
    assert e.key == s.kube.eips[e.key].key;
    OtherClaims(s.kube, e.key, Kube.Cleared(e.status.value), key);
  }

  lemma AttachChange(c: Config, s: State, actor: Actor, e: Eip, eni: string, key: Key)
    requires StoreInv(c, s) && e in s.kube.eipLog && key in s.kube.eips && actor.Ip().Some?
    requires Kube.SetStatusShouldAttach(s.kube, e, eni, actor.Ip().value, actor.Name()).Ok?
    ensures var k' := Kube.SetStatusShouldAttach(s.kube, e, eni, actor.Ip().value, actor.Name()).value;
            && key in k'.eips
            && (k'.eips[key].ResourceId() == s.kube.eips[key].ResourceId()
                || (s.kube.eips[key] == e && k'.eips[key].ResourceId() == Some(actor.Name())))
  {
    hide LinksOk, WatchOk, PodsOk, AwsOk, OnePerUid;
    CasCurrent(s.kube, e);
    assert e.key == s.kube.eips[e.key].key;
    OtherClaims(s.kube, e.key, ActorSteps.AttachedStatus(e, eni, actor.Ip().value, actor.Name()), key);
  }

  /** All other calls leave all claims alone. */
  lemma NoClaimChange(k: Kube.Store, t: Task, key: Key)
    requires forall x :: x in k.eips ==> k.eips[x].key == x
    requires !t.EipDetach? && !t.NotReady? && !t.Claim? && !t.CleanupDetach?
    requires key in k.eips && key in KubeAfter(k, t).eips
    ensures KubeAfter(k, t).eips[key].ResourceId() == k.eips[key].ResourceId()
  {
  }

  ghost predicate GoodChange(k: Kube.Store, t: Task, key: Key)
    requires key in k.eips && key in KubeAfter(k, t).eips
  {
    var e, r, r' := k.eips[key], k.eips[key].ResourceId(), KubeAfter(k, t).eips[key].ResourceId();
    r != r' ==> (r == None && ClaimsBy(t, e, r'.value)) || (r' == None && ReleasesFrom(t, e, r.value))
  }

  lemma EipDetachChange(c: Config, s: State, o: Owner, t: Task, key: Key)
    requires StoreInv(c, s) && TaskOk(c, s, o, t) && t.EipDetach?
    requires key in s.kube.eips && key in KubeAfter(s.kube, t).eips
    ensures GoodChange(s.kube, t, key)
  {
    hide StoreInv, Kube.WriteStatus;
    if Kube.SetStatusDetached(s.kube, t.eip).Ok? {
      DetachChange(c, s, t.eip, key);
      assert Outdated(s, t.eip);
    }
  }

  lemma NotReadyChange(c: Config, s: State, o: Owner, t: Task, key: Key)
    requires StoreInv(c, s) && TaskOk(c, s, o, t) && t.NotReady?
    requires key in s.kube.eips && key in KubeAfter(s.kube, t).eips
    ensures GoodChange(s.kube, t, key)
  {
    hide StoreInv, Kube.WriteStatus;
    if Kube.SetStatusDetached(s.kube, t.eip).Ok? {
      DetachChange(c, s, t.eip, key);
    }
  }

  lemma CleanupDetachChange(c: Config, s: State, o: Owner, t: Task, key: Key)
    requires StoreInv(c, s) && TaskOk(c, s, o, t) && t.CleanupDetach?
    requires key in s.kube.eips && key in KubeAfter(s.kube, t).eips
    ensures GoodChange(s.kube, t, key)
  {
    hide StoreInv, Kube.WriteStatus, Covered;
    assert Target(c, s, t.actor, t.todo[0]) && t.todo[0].ResourceId() == Some(t.actor.Name());
    if Kube.SetStatusDetached(s.kube, t.todo[0]).Ok? {
      DetachChange(c, s, t.todo[0], key);
    }
  }

  lemma ClaimingChange(c: Config, s: State, o: Owner, t: Task, key: Key)
    requires StoreInv(c, s) && TaskOk(c, s, o, t) && t.Claim?
    requires key in s.kube.eips && key in KubeAfter(s.kube, t).eips
    ensures GoodChange(s.kube, t, key)
  {
    hide StoreInv, Kube.WriteStatus;
    if Kube.SetStatusShouldAttach(s.kube, t.eip, t.eni, t.actor.Ip().value, t.actor.Name()).Ok? {
      AttachChange(c, s, t.actor, t.eip, t.eni, key);
    }
  }

  lemma ClaimChange(c: Config, s: State, o: Owner, t: Task, key: Key)
    requires StoreInv(c, s) && TaskOk(c, s, o, t)
    requires key in s.kube.eips && key in KubeAfter(s.kube, t).eips
    ensures GoodChange(s.kube, t, key)
  {
    hide StoreInv, KubeAfter, TaskOk, ClaimsBy, ReleasesFrom;
    if t.EipDetach? {
      EipDetachChange(c, s, o, t, key);
    } else if t.NotReady? {
      NotReadyChange(c, s, o, t, key);
    } else if t.CleanupDetach? {
      CleanupDetachChange(c, s, o, t, key);
    } else if t.Claim? {
      ClaimingChange(c, s, o, t, key);
    } else {
      CurrentKeys(c, s);
      NoClaimChange(s.kube, t, key);
    }
  }

  /** Claim safety: a claim never passes directly from one resource to another. It is made only by the
      resource itself, and withdrawn only by it or by an Eip reconcile whose listing lacks it. */
  lemma ClaimSafety(c: Config, s: State, step: Step, key: Key)
    requires Reachable(c, s) && Next(c, s, step).Some? && SameEip(s, Next(c, s, step).value, key)
    ensures var e, r, r' := s.kube.eips[key], s.kube.eips[key].ResourceId(), Next(c, s,
        step).value.kube.eips[key].ResourceId();
            r != r' ==>
              && (r == None || r' == None)
              && step.Run? && step.owner in s.tasks
              && (r == None ==> ClaimsBy(s.tasks[step.owner], e, r'.value))
              && (r' == None ==> ReleasesFrom(s.tasks[step.owner], e, r.value))
  {
    hide StoreInv, RunTask, OrphansOf, KubeAfter, AwsAfter, TaskOk, PhaseOk, ClaimsBy, ReleasesFrom;
    ReachableInv(c, s);
    if step.Run? {
      CallEffect(c, s, step.owner, s.tasks[step.owner], step.choice);
      assert TaskOk(c, s, step.owner, s.tasks[step.owner]);
      ClaimChange(c, s, step.owner, s.tasks[step.owner], key);
    } else {
      CurrentKeys(c, s);
      OutsideClaims(c, s, step, key);
    }
  }

  lemma OutsideClaims(c: Config, s: State, step: Step, key: Key)
    requires forall k :: k in s.kube.eips ==> s.kube.eips[k].key == k
    requires Next(c, s, step).Some? && !step.Run? && key in s.kube.eips && key in Next(c, s, step).value.kube.eips
    ensures s.kube.eips[key].ResourceId() == Next(c, s, step).value.kube.eips[key].ResourceId()
  {
    hide RunTask, OrphansOf;
  }

  lemma CurrentKeys(c: Config, s: State)
    requires StoreInv(c, s)
    ensures forall k :: k in s.kube.eips ==> s.kube.eips[k].key == k
  {
  }

  // ---- Moving addresses ----

  /** Nobody but `name` claims the Eip that owns address `x`. */
  ghost predicate OnlyClaimedBy(s: State, x: nat, name: string)
    requires x in s.aws.addrs
  {
    forall key :: key in s.kube.eips && s.kube.eips[key].uid == s.aws.addrs[x].uid ==>
        NoneOr(s.kube.eips[key].ResourceId(), name)
  }

  /** Move safety: when a resource moves an address to itself, or its cleanup takes one off its interface,
      no other resource claims that address's Eip at that moment. */
  lemma MoveSafety(c: Config, s: State, o: Owner, x: nat)
    requires Reachable(c, s) && o in s.tasks && x in s.aws.addrs
    ensures s.tasks[o].Associate? && s.tasks[o].eip.AllocationId() == Some(x) ==>
              OnlyClaimedBy(s, x, s.tasks[o].actor.Name())
    ensures s.tasks[o].CleanupDisassociate? && Aws.Names(s.aws.addrs[x], s.tasks[o].association) ==>
              OnlyClaimedBy(s, x, s.tasks[o].actor.Name())
  {
    hide PhaseOk, WatchOk, PodsOk;
    ReachableInv(c, s);
    var t := s.tasks[o];
    assert TaskOk(c, s, o, t);
    if t.Associate? && t.eip.AllocationId() == Some(x) {
      TargetOnlyClaim(c, s, t.actor, t.eip, x);
    }
    if t.CleanupDisassociate? && Aws.Names(s.aws.addrs[x], t.association) {
      assert Target(c, s, t.actor, t.todo[0]);
      TargetOnlyClaim(c, s, t.actor, t.todo[0], x);
    }
  }

  lemma TargetOnlyClaim(c: Config, s: State, actor: Actor, e: Eip, x: nat)
    requires StoreInv(c, s) && Target(c, s, actor, e) && e.AllocationId() == Some(x) && x in s.aws.addrs
    ensures OnlyClaimedBy(s, x, actor.Name())
  {
    assert AllocationOk(s, e);
    forall key | key in s.kube.eips && s.kube.eips[key].uid == e.uid ensures key == e.key {
      assert s.kube.eips[key] in s.kube.eipLog;
    }
  }

  // ---- Associations ----

  /** The association an Eip's status names is never one of another Eip's address. */
  lemma AssociationIsOwn(c: Config, s: State, key: Key, x: nat)
    requires Reachable(c, s) && key in s.kube.eips && x in s.aws.addrs
    requires s.kube.eips[key].AssociationId().Some? && Aws.Names(s.aws.addrs[x], s.kube.eips[key].AssociationId().value)
    ensures s.aws.addrs[x].uid == s.kube.eips[key].uid
  {
    hide PhaseOk, WatchOk, PodsOk, TasksOk, LogOk;
    ReachableInv(c, s);
    assert AssociationOk(s, s.kube.eips[key]);
  }

  /** When an Eip reconcile takes off what a copy of its status names, it touches nothing but that one
      association of that Eip's own address: not another Eip's, and not a newer one of its own. */
  lemma DisassociationIsolated(c: Config, s: State, o: Owner, x: nat)
    requires Reachable(c, s) && o in s.tasks && s.tasks[o].EipDisassociate? && x in s.aws.addrs
    ensures var e := s.tasks[o].eip;
            && AfterEipDisassociate(s, o, e, s.tasks[o].listed).Some?
            && var a' := AfterEipDisassociate(s, o, e, s.tasks[o].listed).value.aws;
               && x in a'.addrs
               && (a'.addrs[x] != s.aws.addrs[x] ==>
                     s.aws.addrs[x].uid == e.uid && Aws.AssociationOf(s.aws.addrs[x]) == e.AssociationId())
  {
    hide PhaseOk, WatchOk, PodsOk, LogOk;
    ReachableInv(c, s);
    assert TaskOk(c, s, o, s.tasks[o]);
    assert AssociationOk(s, s.tasks[o].eip);
  }

  // ---- No lost updates ----

  /** The copy from which a task is about to make a compare-and-swap. */
  function SwapCopy(t: Task): Option<Eip> {
    match t
    case EipDetach(e, _) => Some(e)
    case NotReady(_, e) => Some(e)
    case Claim(_, e, _, _) => Some(e)
    case CleanupDetach(_, todo) => if todo == [] then None else Some(todo[0])
    case _ => None
  }

  /** A compare-and-swap that succeeds was made from the current object, so it overwrites nothing unseen. */
  lemma SwapSeesCurrent(c: Config, s: State, o: Owner)
    requires Reachable(c, s) && o in s.tasks && SwapCopy(s.tasks[o]).Some?
    requires KubeAfter(s.kube, s.tasks[o]) != s.kube
    ensures var e := SwapCopy(s.tasks[o]).value; e.key in s.kube.eips && s.kube.eips[e.key] == e
  {
    hide PhaseOk, WatchOk, PodsOk, LinksOk, AwsOk, OnePerUid, Covered, HeadAssociation;
    ReachableInv(c, s);
    var t := s.tasks[o];
    assert TaskOk(c, s, o, t);
    if t.CleanupDetach? {
      assert Target(c, s, t.actor, t.todo[0]);
    }
    CasCurrent(s.kube, SwapCopy(t).value);
  }

  /** An Eip reconcile that will have to detach does not spoil that by its own status write: if its copy
      is current and has a claim, recording the allocation changes nothing, not even the version. */
  lemma NoSelfConflict(c: Config, s: State, o: Owner)
    requires Reachable(c, s) && o in s.tasks && s.tasks[o].EipRecord?
    requires s.tasks[o].eip.ResourceId().Some?
    requires s.tasks[o].eip.key in s.kube.eips && s.kube.eips[s.tasks[o].eip.key].version == s.tasks[o].eip.version
    ensures KubeAfter(s.kube, s.tasks[o]) == s.kube
  {
    hide PhaseOk, PodsOk;
    ReachableInv(c, s);
    var t := s.tasks[o];
    assert TaskOk(c, s, o, t);
    CasCurrent(s.kube, t.eip);
    assert StatusOk(c, t.eip);
    CreatedIsStable(c, s, t.eip, t.alloc, t.publicIp);
  }

  // ---- Pods ----

  /** A pod's claim names a pod that exists and has its finalizer. */
  lemma PodClaimsAreLive(c: Config, s: State, key: Key)
    requires Reachable(c, s) && key in s.kube.eips
    requires s.kube.eips[key].selector.PodSelector? && s.kube.eips[key].ResourceId().Some?
    ensures var p := Key(key.ns, s.kube.eips[key].ResourceId().value);
            p in s.kube.pods && s.kube.pods[p].finalizer && s.kube.eips[key].selector.podName == p.name
  {
    hide PhaseOk, WatchOk, TasksOk, LogOk, AwsOk, OnePerUid;
    ReachableInv(c, s);
    assert PodClaimOk(s, key) && StatusOk(c, s.kube.eips[key]);
  }

  /** When a pod's cleanup has succeeded, no Eip of the namespace names the pod. */
  lemma PodCleanupComplete(c: Config, s: State, o: Owner, key: Key)
    requires Reachable(c, s) && o in s.tasks && s.tasks[o].Finalize? && s.tasks[o].actor.PodActor?
    requires key in s.kube.eips && key.ns == s.tasks[o].actor.pod.key.ns
    ensures s.kube.eips[key].ResourceId() != Some(s.tasks[o].actor.pod.key.name)
  {
    CleanupComplete(c, s, o, key);
  }

  /** When a node's cleanup has succeeded, the node claims only Eips that do not match the labels it had in
      the copy that was cleaned up. */
  lemma NodeCleanupComplete(c: Config, s: State, o: Owner, key: Key)
    requires Reachable(c, s) && o in s.tasks && s.tasks[o].Finalize? && s.tasks[o].actor.NodeActor?
    requires key in s.kube.eips && s.kube.eips[key].ResourceId() == Some(s.tasks[o].actor.node.name)
    ensures !s.kube.eips[key].MatchesNode(s.tasks[o].actor.node.labels)
  {
    CleanupComplete(c, s, o, key);
  }

  lemma CleanupComplete(c: Config, s: State, o: Owner, key: Key)
    requires Reachable(c, s) && o in s.tasks && s.tasks[o].Finalize? && key in s.kube.eips
    ensures !ToFree(s.tasks[o].actor, s.kube.eips[key]) && s.kube.eips[key].key == key
  {
    hide LogOk, LinksOk, WatchOk, PodsOk, AwsOk, OnePerUid, PhaseOk;
    ReachableInv(c, s);
    assert TaskOk(c, s, o, s.tasks[o]);
  }

  /** An Eip is detached by a cleanup only when its address is on no interface. */
  lemma DetachedMeansUnassociated(c: Config, s: State, o: Owner)
    requires Reachable(c, s) && o in s.tasks && s.tasks[o].CleanupDetach?
    ensures var todo := s.tasks[o].todo;
            && todo != [] && todo[0].AllocationId().Some?
            && (todo[0].AllocationId().value in s.aws.addrs ==>
                  s.aws.addrs[todo[0].AllocationId().value].association == None)
  {
    hide StoreInv, PhaseOk;
    ReachableInv(c, s);
    assert TaskOk(c, s, o, s.tasks[o]);
  }

  // ---- Conservation ----

  lemma AddressStays(c: Config, s: State, step: Step, x: nat)
    requires Inv(c, s) && Next(c, s, step).Some? && x in s.aws.addrs
    ensures var s' := Next(c, s, step).value;
            (x in s'.aws.addrs && s'.aws.addrs[x].uid == s.aws.addrs[x].uid) || s.aws.addrs[x].uid in s.condemned
  {
    hide RunTask, OrphansOf, KubeAfter, LogOk, CurrentOk, LinksOk, WatchOk, PodsOk, Start, Environment;
    if step.Run? {
      var t := s.tasks[step.owner];
      CallEffect(c, s, step.owner, t, step.choice);
      assert TaskOk(c, s, step.owner, t);
      AddressKept(c, s, step.owner, t, step.choice, x);
    } else if step.SweepStep? {
    } else {
      OutsideAws(c, s, step);
    }
  }

  lemma OutsideAws(c: Config, s: State, step: Step)
    requires Next(c, s, step).Some? && !step.Run? && !step.SweepStep?
    ensures Next(c, s, step).value.aws == s.aws
  {
    hide RunTask, OrphansOf;
  }

  lemma AddressKept(c: Config, s: State, o: Owner, t: Task, choice: Choice, x: nat)
    requires AwsOk(s.aws) && TaskOk(c, s, o, t) && x in s.aws.addrs
    ensures var a' := AwsAfter(s.aws, t, choice);
            (x in a'.addrs && a'.addrs[x].uid == s.aws.addrs[x].uid) || s.aws.addrs[x].uid in s.condemned
  {
    hide Applying, Target, Cleans;
  }

  lemma {:induction false} AddressStaysOn(c: Config, s: State, run: seq<Step>, x: nat)
    requires Inv(c, s) && CanRun(c, s, run) && x in s.aws.addrs
    ensures var s' := After(c, s, run);
            (x in s'.aws.addrs && s'.aws.addrs[x].uid == s.aws.addrs[x].uid) || s.aws.addrs[x].uid in s'.condemned
    decreases |run|
  {
    hide Next, Inv;
    if run != [] {
      InvStep(c, s, run[0]);
      AddressStays(c, s, run[0], x);
      LaterOn(c, s, run);
      if x in Next(c, s, run[0]).value.aws.addrs {
        AddressStaysOn(c, Next(c, s, run[0]).value, run[1..], x);
      }
    }
  }

  ghost predicate HasAddress(s: State, uid: nat) {
    exists x :: x in s.aws.addrs && s.aws.addrs[x].uid == uid
  }

  /** The Eip is there, and is not being deleted. */
  ghost predicate StaysUp(s: State, uid: nat) {
    exists key :: key in s.kube.eips && s.kube.eips[key].uid == uid && !s.kube.eips[key].deleting
  }

  /** Per Eip: over any run, the addresses of an Eip that had one, is still there and is not being deleted are
      exactly the same; and an Eip that is gone has none. So whatever an autocreated Eip was given between the
      appearance of its pod and the end of both cleanups, and however often reconciles stopped midway or were
      repeated, nothing of it is left, and no other Eip has lost or doubled its address. */
  lemma EachEipConserved(c: Config, s: State, run: seq<Step>, uid: nat)
    requires Reachable(c, s) && CanRun(c, s, run)
    ensures var s' := After(c, s, run);
            && ((forall key :: key in s'.kube.eips ==> s'.kube.eips[key].uid != uid) ==> NoAddress(s', uid))
            && (HasAddress(s, uid) && StaysUp(s', uid) ==>
                  forall x :: x in s.aws.addrs && s.aws.addrs[x].uid == uid <==>
                      x in s'.aws.addrs && s'.aws.addrs[x].uid == uid)
  {
    hide Next, LogOk, CurrentOk, LinksOk, AwsOk, PodsOk, TasksOk, PhaseOk;
    var s' := After(c, s, run);
    ReachableInv(c, s);
    InvRun(c, s, run);
    ReachableOn(c, s, run);
    if forall key :: key in s'.kube.eips ==> s'.kube.eips[key].uid != uid {
      NothingLeftBehind(c, s', uid);
    }
    if HasAddress(s, uid) && StaysUp(s', uid) {
      var key :| key in s'.kube.eips && s'.kube.eips[key].uid == uid && !s'.kube.eips[key].deleting;
      var y :| y in s.aws.addrs && s.aws.addrs[y].uid == uid;
      AddressStaysOn(c, s, run, y);
      forall x ensures x in s.aws.addrs && s.aws.addrs[x].uid == uid <==> x == y
        ensures x in s'.aws.addrs && s'.aws.addrs[x].uid == uid <==> x == y
      {
      }
    }
  }

  /** Conservation: if in the end just those Eips that had an address in the beginning are left, and none
      of them is being deleted, then just the same addresses are allocated: whatever was allocated in between
      for Eips that came and went has been released, and nothing else has. */
  lemma Conservation(c: Config, s: State, run: seq<Step>)
    requires Reachable(c, s) && CanRun(c, s, run)
    requires forall key :: key in After(c, s, run).kube.eips ==>
               !After(c, s, run).kube.eips[key].deleting && HasAddress(s, After(c, s, run).kube.eips[key].uid)
    requires forall x :: x in s.aws.addrs ==>
               exists key :: key in After(c, s, run).kube.eips
                   && After(c, s, run).kube.eips[key].uid == s.aws.addrs[x].uid
    ensures After(c, s, run).aws.addrs.Keys == s.aws.addrs.Keys
  {
    hide Next, LogOk, CurrentOk, LinksOk, AwsOk, PodsOk, TasksOk, PhaseOk;
    var s' := After(c, s, run);
    ReachableInv(c, s);
    InvRun(c, s, run);
    forall x | x in s.aws.addrs ensures x in s'.aws.addrs && s'.aws.addrs[x].uid == s.aws.addrs[x].uid {
      AddressStaysOn(c, s, run, x);
    }
    ReachableOn(c, s, run);
    forall x | x in s'.aws.addrs ensures x in s.aws.addrs {
      NoLeak(c, s', x);
      var key :| key in s'.kube.eips && s'.kube.eips[key].uid == s'.aws.addrs[x].uid;
      var y :| y in s.aws.addrs && s.aws.addrs[y].uid == s'.aws.addrs[x].uid;
      assert y == x;
    }
  }

  lemma ReachableOn(c: Config, s: State, run: seq<Step>)
    requires Reachable(c, s) && CanRun(c, s, run)
    ensures Reachable(c, After(c, s, run))
  {
    hide Next;
    var first :| CanRun(c, Init(), first) && After(c, Init(), first) == s;
    RunOn(c, Init(), first, run);
  }

  /** No Eip has the uid. */
  ghost predicate NoEip(s: State, uid: nat) {
    forall key :: key in s.kube.eips ==> s.kube.eips[key].uid != uid
  }

  /** Whatever is stored has a uid that was there before, or a new one. */
  lemma UidsCall(k: Kube.Store, t: Task)
    requires forall key :: key in k.eips ==> k.eips[key].key == key
    ensures forall key :: key in KubeAfter(k, t).eips ==>
                            (key in k.eips && KubeAfter(k, t).eips[key].uid == k.eips[key].uid)
                                || KubeAfter(k, t).eips[key].uid >= k.next
  {
  }

  lemma UidStep(c: Config, s: State, step: Step, uid: nat)
    requires Inv(c, s) && Next(c, s, step).Some? && NoEip(s, uid) && uid < s.kube.next
    ensures NoEip(Next(c, s, step).value, uid)
  {
    hide RunTask, OrphansOf, KubeAfter, AwsAfter, StoreInv, TasksOk, PhaseOk;
    CurrentKeys(c, s);
    if step.Run? {
      CallEffect(c, s, step.owner, s.tasks[step.owner], step.choice);
      UidsCall(s.kube, s.tasks[step.owner]);
    }
  }

  /** An Eip that is gone does not come back under its uid. */
  lemma {:induction false} GoneForGood(c: Config, s: State, run: seq<Step>, uid: nat)
    requires Inv(c, s) && CanRun(c, s, run) && NoEip(s, uid) && uid < s.kube.next
    ensures NoEip(After(c, s, run), uid)
    decreases |run|
  {
    hide Next, Inv, NoEip;
    if run != [] {
      InvStep(c, s, run[0]);
      UidStep(c, s, run[0], uid);
      LaterStep(c, s, run[0]);
      GoneForGood(c, Next(c, s, run[0]).value, run[1..], uid);
    }
  }

  /** An Eip in deletion stays in deletion as long as it is there. */
  lemma DeletionIsFinal(c: Config, s: State, run: seq<Step>, key: Key, key': Key)
    requires Inv(c, s) && CanRun(c, s, run) && key in s.kube.eips && s.kube.eips[key].deleting
    requires key' in After(c, s, run).kube.eips && After(c, s, run).kube.eips[key'].uid == s.kube.eips[key].uid
    ensures After(c, s, run).kube.eips[key'].deleting
  {
    hide AwsOk, OnePerUid, LinksOk, WatchOk, PodsOk, TasksOk, PhaseOk, Next;
    LaterOn(c, s, run);
    InvRun(c, s, run);
    var e, e' := s.kube.eips[key], After(c, s, run).kube.eips[key'];
    assert UpTo(e, e') && Grows(e, e');
  }

  /** The call that deletes the pod's own Eip: it is gone, or in deletion. */
  lemma TailDeletes(c: Config, s: State, o: Owner, choice: Choice, key: Key)
    requires Inv(c, s) && Next(c, s, Run(o, choice)).Some? && key in s.kube.eips
    requires o in s.tasks && s.tasks[o].CleanupTail? && s.tasks[o].actor.PodActor? && s.tasks[o].actor.pod.autocreate
    requires key == s.tasks[o].actor.pod.key
    ensures var s' := Next(c, s, Run(o, choice)).value;
            NoEip(s', s.kube.eips[key].uid)
                || (key in s'.kube.eips && s'.kube.eips[key].deleting && s'.kube.eips[key].uid == s.kube.eips[key].uid)
  {
    hide RunTask, AwsAfter, TasksOk, PhaseOk, StoreInv, Start, Environment, Process;
    CallEffect(c, s, o, s.tasks[o], choice);
    UniqueUids(c, s);
  }

  lemma UniqueUids(c: Config, s: State)
    requires StoreInv(c, s)
    ensures forall a, b :: a in s.kube.eips && b in s.kube.eips && s.kube.eips[a].uid == s.kube.eips[b].uid ==> a == b
    ensures forall key :: key in s.kube.eips ==> s.kube.eips[key].key == key && s.kube.eips[key].uid < s.kube.next
  {
  }

  /** The end of an autocreated Eip: once the pod's cleanup has deleted it, then after any further run, with
      whatever stops, crashes and retries, it is still in deletion or it is gone, for good and with every
      address that it ever had, however often its own cleanup was tried. */
  lemma AutocreatedEipGoes(c: Config, s: State, o: Owner, choice: Choice, key: Key, run: seq<Step>)
    requires Reachable(c, s) && Next(c, s, Run(o, choice)).Some? && key in s.kube.eips
    requires o in s.tasks && s.tasks[o].CleanupTail? && s.tasks[o].actor.PodActor? && s.tasks[o].actor.pod.autocreate
    requires key == s.tasks[o].actor.pod.key
    requires CanRun(c, Next(c, s, Run(o, choice)).value, run)
    ensures var uid, s' := s.kube.eips[key].uid, After(c, Next(c, s, Run(o, choice)).value, run);
            && (forall key' :: key' in s'.kube.eips && s'.kube.eips[key'].uid == uid ==> s'.kube.eips[key'].deleting)
            && (NoEip(s', uid) ==> NoAddress(s', uid))
  {
    hide Next, Inv, NoEip, NoAddress;
    ReachableInv(c, s);
    var uid := s.kube.eips[key].uid;
    var s1 := Next(c, s, Run(o, choice)).value;
    InvStep(c, s, Run(o, choice));
    TailDeletes(c, s, o, choice, key);
    EipUid(c, s, key);
    LaterStep(c, s, Run(o, choice));
    var s' := After(c, s1, run);
    if NoEip(s1, uid) {
      GoneForGood(c, s1, run, uid);
      NoSuchEip(s', uid);
    } else {
      forall key' | key' in s'.kube.eips && s'.kube.eips[key'].uid == uid ensures s'.kube.eips[key'].deleting {
        DeletionIsFinal(c, s1, run, key, key');
      }
    }
    if NoEip(s', uid) {
      NoSuchEip(s', uid);
      ReachableStep(c, s, Run(o, choice));
      ReachableOn(c, s1, run);
      NothingLeftBehind(c, s', uid);
    }
  }

  lemma NoSuchEip(s: State, uid: nat)
    requires NoEip(s, uid)
    ensures forall key :: key in s.kube.eips ==> s.kube.eips[key].uid != uid
  {
  }

  lemma EipUid(c: Config, s: State, key: Key)
    requires Inv(c, s) && key in s.kube.eips
    ensures s.kube.eips[key].uid < s.kube.next
  {
    UniqueUids(c, s);
  }

  lemma ReachableStep(c: Config, s: State, step: Step)
    requires Reachable(c, s) && Next(c, s, step).Some?
    ensures Reachable(c, Next(c, s, step).value)
  {
    hide Next;
    var s' := Next(c, s, step).value;
    assert [step][1..] == [] && CanRun(c, s', []);
    assert CanRun(c, s, [step]) && After(c, s, [step]) == After(c, s', []);
    ReachableOn(c, s, [step]);
  }
}
