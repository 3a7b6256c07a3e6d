/**
 Every step of a pod or node reconcile keeps the invariant.

 The lemmas are named as in the module on Eip reconciles. A resource acts only on Eips that select it, so two
 resources meet at an Eip only if both are nodes, and node reconciles never overlap. That is why the claim made by
 compare-and-swap still stands when the address is moved, why the association recorded afterwards is one of that
 Eip's own address, and why a cleanup that has taken an address off its interface finds it off when it clears the
 claim. A cleanup goes through a list made at its start: what the list must cover can only shrink, because nobody
 else can claim for a pod that is being deleted.
 */
module ActorSteps {
  import opened Base
  import opened Protocol
  import opened Invariants
  import opened Interference
  import opened Effects
  import opened EipSteps
  import Kube
  import Aws

  // ---- Listing ----

  /** An Eip just read, whose claim is free for the actor, is one the actor may go on with. */
  lemma ListedTarget(c: Config, s: State, actor: Actor, key: Key)
    requires StoreInv(c, s) && key in s.kube.eips && key.ns == actor.Ns(c)
    requires Mine(actor.Owner(), s.kube.eips[key])
    requires NoneOr(s.kube.eips[key].ResourceId(), actor.Name())
    ensures Target(c, s, actor, s.kube.eips[key])
  {
  }

  lemma TargetSame(c: Config, s: State, s': State, actor: Actor, e: Eip)
    requires Target(c, s, actor, e) && SameStores(s, s')
    ensures Target(c, s', actor, e)
    ensures ActorApplying(c, s, actor) ==> ActorApplying(c, s', actor)
  {
  }

  lemma PodTakesTarget(c: Config, s: State, p: Pod, keys: seq<Key>, e: Eip)
    requires StoreInv(c, s) && Kube.Lists(s.kube, p.key.ns, keys) && e in MatchingPod(s.kube.eips, keys, p.key.name)
    ensures Target(c, s, PodActor(p), e)
  {
    var i :| 0 <= i < |keys| && s.kube.eips[keys[i]] == e;
    assert StatusOk(c, e);
    ListedTarget(c, s, PodActor(p), keys[i]);
  }

  lemma PodListTask(c: Config, s: State, o: Owner, p: Pod, eni: string, choice: Choice)
    requires StoreInv(c, s) && TaskOk(c, s, o, PodList(p, eni)) && AfterPodList(s, o, p, eni, choice).Some?
    ensures TaskNow(c, AfterPodList(s, o, p, eni, choice).value, o)
  {
    hide LogOk, CurrentOk, LinksOk, WatchOk, PodsOk, AwsOk, OnePerUid, Target, Kube.Select, MatchingPod;
    var matched := MatchingPod(s.kube.eips, choice.keys, p.key.name);
    if |matched| == 1 && matched[0].AllocationId().Some? && p.ip.Some? {
      PodTakesTarget(c, s, p, choice.keys, matched[0]);
      TargetSame(c, s, AfterPodList(s, o, p, eni, choice).value, PodActor(p), matched[0]);
    }
  }

  lemma NodeTakesTarget(c: Config, s: State, n: Node, keys: seq<Key>, e: Eip)
    requires StoreInv(c, s) && Kube.Lists(s.kube, c.NodeNs(), keys)
    requires e in MatchingNode(s.kube.eips, keys, n.labels) && e.FreeFor(n.name)
    ensures Target(c, s, NodeActor(n), e)
  {
    var i :| 0 <= i < |keys| && s.kube.eips[keys[i]] == e;
    ListedTarget(c, s, NodeActor(n), keys[i]);
  }

  lemma NodeListTask(c: Config, s: State, o: Owner, n: Node, choice: Choice)
    requires StoreInv(c, s) && TaskOk(c, s, o, NodeList(n)) && AfterNodeList(c, s, o, n, choice).Some?
    ensures TaskNow(c, AfterNodeList(c, s, o, n, choice).value, o)
  {
    hide LogOk, CurrentOk, LinksOk, WatchOk, PodsOk, AwsOk, OnePerUid, Target, Kube.Select, InstanceId, MatchingNode;
    var chosen := Kube.FirstFree(MatchingNode(s.kube.eips, choice.keys, n.labels), n.name);
    if chosen.Some? {
      NodeTakesTarget(c, s, n, choice.keys, chosen.value);
      TargetSame(c, s, AfterNodeList(c, s, o, n, choice).value, NodeActor(n), chosen.value);
    }
  }

  lemma PodListStep(c: Config, s: State, o: Owner, p: Pod, eni: string, choice: Choice)
    requires Inv(c, s) && s.phase.Running? && TaskOk(c, s, o, PodList(p, eni))
    requires AfterPodList(s, o, p, eni, choice).Some?
    ensures Inv(c, AfterPodList(s, o, p, eni, choice).value)
  {
    hide LogOk, CurrentOk, LinksOk, WatchOk, PodsOk, AwsOk, OnePerUid, PhaseOk, TasksOk, RelyOthers, TaskOk,
         Kube.Select, Kube.Lists, MatchingPod;
    PodListTask(c, s, o, p, eni, choice);
    AdvanceQuietly(c, s, AfterPodList(s, o, p, eni, choice).value, o);
  }

  lemma NodeListStep(c: Config, s: State, o: Owner, n: Node, choice: Choice)
    requires Inv(c, s) && s.phase.Running? && TaskOk(c, s, o, NodeList(n)) && AfterNodeList(c, s, o, n, choice).Some?
    ensures Inv(c, AfterNodeList(c, s, o, n, choice).value)
  {
    hide LogOk, CurrentOk, LinksOk, WatchOk, PodsOk, AwsOk, OnePerUid, PhaseOk, TasksOk, RelyOthers, TaskOk,
         Kube.Select, Kube.FirstFree, Kube.Lists, InstanceId, MatchingNode;
    NodeListTask(c, s, o, n, choice);
    AdvanceQuietly(c, s, AfterNodeList(c, s, o, n, choice).value, o);
  }

  // ---- Reads that change nothing ----

  lemma LocateTask(c: Config, s: State, o: Owner, p: Pod, choice: Choice)
    requires TaskOk(c, s, o, PodLocate(p)) && AfterPodLocate(s, o, p, choice).Some?
    ensures TaskNow(c, AfterPodLocate(s, o, p, choice).value, o)
  {
  }

  lemma AttachingSame(c: Config, s: State, s': State, actor: Actor, e: Eip)
    requires Attaching(c, s, actor, e) && SameStores(s, s')
    ensures Attaching(c, s', actor, e)
  {
  }

  lemma DescribedTask(c: Config, s: State, o: Owner, actor: Actor, e: Eip, eni: Option<string>)
    requires TaskOk(c, s, o, Describe(actor, e, eni))
    ensures AfterDescribe(s, o, actor, e, eni).Some?
    ensures TaskNow(c, AfterDescribe(s, o, actor, e, eni).value, o)
  {
    hide Attaching;
    AttachingSame(c, s, AfterDescribe(s, o, actor, e, eni).value, actor, e) by {
      assert Attaching(c, s, actor, e);
    }
  }

  lemma NodeLocateTask(c: Config, s: State, o: Owner, n: Node, e: Eip, address: Address, choice: Choice)
    requires TaskOk(c, s, o, NodeLocate(n, e, address)) && AfterNodeLocate(s, o, n, e, address, choice).Some?
    ensures TaskNow(c, AfterNodeLocate(s, o, n, e, address, choice).value, o)
  {
    hide Attaching;
    AttachingSame(c, s, AfterNodeLocate(s, o, n, e, address, choice).value, NodeActor(n), e);
  }

  lemma LocateStep(c: Config, s: State, o: Owner, p: Pod, choice: Choice)
    requires Inv(c, s) && s.phase.Running? && TaskOk(c, s, o, PodLocate(p)) && AfterPodLocate(s, o, p, choice).Some?
    ensures Inv(c, AfterPodLocate(s, o, p, choice).value)
  {
    hide LogOk, CurrentOk, LinksOk, WatchOk, PodsOk, AwsOk, OnePerUid, PhaseOk, TasksOk, RelyOthers, TaskOk;
    LocateTask(c, s, o, p, choice);
    AdvanceQuietly(c, s, AfterPodLocate(s, o, p, choice).value, o);
  }

  lemma DescribedStep(c: Config, s: State, o: Owner, actor: Actor, e: Eip, eni: Option<string>)
    requires Inv(c, s) && s.phase.Running? && TaskOk(c, s, o, Describe(actor, e, eni))
    ensures AfterDescribe(s, o, actor, e, eni).Some? && Inv(c, AfterDescribe(s, o, actor, e, eni).value)
  {
    hide LogOk, CurrentOk, LinksOk, WatchOk, PodsOk, AwsOk, OnePerUid, PhaseOk, TasksOk, RelyOthers, TaskOk;
    DescribedTask(c, s, o, actor, e, eni);
    AdvanceQuietly(c, s, AfterDescribe(s, o, actor, e, eni).value, o);
  }

  lemma NodeLocateStep(c: Config, s: State, o: Owner, n: Node, e: Eip, address: Address, choice: Choice)
    requires Inv(c, s) && s.phase.Running? && TaskOk(c, s, o, NodeLocate(n, e, address))
    requires AfterNodeLocate(s, o, n, e, address, choice).Some?
    ensures Inv(c, AfterNodeLocate(s, o, n, e, address, choice).value)
  {
    hide LogOk, CurrentOk, LinksOk, WatchOk, PodsOk, AwsOk, OnePerUid, PhaseOk, TasksOk, RelyOthers, TaskOk;
    NodeLocateTask(c, s, o, n, e, address, choice);
    AdvanceQuietly(c, s, AfterNodeLocate(s, o, n, e, address, choice).value, o);
  }

  // ---- Writes ----

  lemma CreateEipStep(c: Config, s: State, o: Owner, p: Pod)
    requires Inv(c, s) && s.phase.Running? && TaskOk(c, s, o, PodCreateEip(p))
    ensures Inv(c, AfterPodCreateEip(s, o, p).value)
  {
    hide LogOk, CurrentOk, LinksOk, WatchOk, PodsOk, AwsOk, OnePerUid, PhaseOk, TasksOk;
    var s' := AfterPodCreateEip(s, o, p).value;
    if p.key !in s.kube.eips {
      var s1 := Create(s, p.key, PodSelector(p.key.name));
      CreateInv(c, s, p.key, PodSelector(p.key.name));
      forall q | q != o ensures Rely(s, s1, q) {
        CreateRely(s, p.key, PodSelector(p.key.name), q);
      }
      Advance(c, s, s1, s', o);
    } else {
      AdvanceQuietly(c, s, s', o);
    }
  }

  lemma NotReadyStep(c: Config, s: State, o: Owner, n: Node, e: Eip)
    requires Inv(c, s) && s.phase.Running? && TaskOk(c, s, o, NotReady(n, e))
    ensures Inv(c, AfterNotReady(s, o, e).value)
  {
    hide LogOk, CurrentOk, LinksOk, WatchOk, PodsOk, AwsOk, OnePerUid, PhaseOk, TasksOk, RelyOthers;
    var s' := AfterNotReady(s, o, e).value;
    if Kube.SetStatusDetached(s.kube, e).Ok? {
      DetachOk(c, s, e, o);
      Advance(c, s, s.(kube := Kube.SetStatusDetached(s.kube, e).value), s', o);
    } else {
      AdvanceQuietly(c, s, s', o);
    }
  }

  function AttachedStatus(e: Eip, eni: string, ip: string, resource: string): Status
    requires e.status.Some?
  {
    e.status.value.(eni := Some(eni), privateIp := Some(ip), resourceId := Some(resource))
  }

  /** A successful claim was made from the current object, and is good. */
  lemma ClaimOk(c: Config, s: State, actor: Actor, e: Eip, eni: string)
    requires StoreInv(c, s) && Attaching(c, s, actor, e) && actor.Ip().Some?
    requires Kube.SetStatusShouldAttach(s.kube, e, eni, actor.Ip().value, actor.Name()).Ok?
    ensures e.key in s.kube.eips && s.kube.eips[e.key] == e
    ensures var k := Kube.SetStatusShouldAttach(s.kube, e, eni, actor.Ip().value, actor.Name()).value;
            StoreInv(c, s.(kube := k)) && RelyOthers(s, s.(kube := k), actor.Owner())
  {
    CasCurrent(s.kube, e);
    assert StatusOk(c, e) && AllocationOk(s, e) && AssociationOk(s, e);
    WriteOk(c, s, e.key, AttachedStatus(e, eni, actor.Ip().value, actor.Name()), actor.Owner());
  }

  /** The claim just made is the task's own. */
  lemma ClaimAttaches(c: Config, s: State, s': State, actor: Actor, e: Eip, eni: string)
    requires Attaching(c, s, actor, e) && actor.Ip().Some? && e.key in s.kube.eips && s.kube.eips[e.key] == e
    requires Kube.SetStatusShouldAttach(s.kube, e, eni, actor.Ip().value, actor.Name()) == Ok(s'.kube)
    ensures Attaching(c, s', actor, e)
  {
  }

  lemma ClaimTask(c: Config, s: State, o: Owner, actor: Actor, e: Eip, address: Address, eni: string)
    requires TaskOk(c, s, o, Claim(actor, e, address, eni))
    requires Kube.SetStatusShouldAttach(s.kube, e, eni, actor.Ip().value, actor.Name()).Ok?
    requires s.kube.eips[e.key] == e
    ensures TaskNow(c, AfterClaim(s, o, actor, e, address, eni).value, o)
  {
    hide Applying, Cleaning, Target, Remaining, Found, NoAddress, Stray, Outdated, ActorCleaning, Cleans,
         HeadAssociation, Associated;
    hide Kube.WriteStatus;
    ClaimAttaches(c, s, AfterClaim(s, o, actor, e, address, eni).value, actor, e, eni);
  }

  lemma ClaimStep(c: Config, s: State, o: Owner, actor: Actor, e: Eip, address: Address, eni: string)
    requires Inv(c, s) && s.phase.Running? && TaskOk(c, s, o, Claim(actor, e, address, eni))
    ensures Inv(c, AfterClaim(s, o, actor, e, address, eni).value)
  {
    hide LogOk, CurrentOk, LinksOk, WatchOk, PodsOk, AwsOk, OnePerUid, PhaseOk, TasksOk, RelyOthers;
    var s' := AfterClaim(s, o, actor, e, address, eni).value;
    var r := Kube.SetStatusShouldAttach(s.kube, e, eni, actor.Ip().value, actor.Name());
    if r.Ok? {
      ClaimOk(c, s, actor, e, eni);
      ClaimTask(c, s, o, actor, e, address, eni);
      Advance(c, s, s.(kube := r.value), s', o);
    } else {
      AdvanceQuietly(c, s, s', o);
    }
  }

  lemma AssociateStep(c: Config, s: State, o: Owner, actor: Actor, e: Eip, address: Address, eni: string)
    requires Inv(c, s) && s.phase.Running? && TaskOk(c, s, o, Associate(actor, e, address, eni))
    ensures Inv(c, AfterAssociate(s, o, actor, e, address, eni).value)
  {
    hide LogOk, CurrentOk, LinksOk, WatchOk, PodsOk, AwsOk, OnePerUid, PhaseOk, TasksOk;
    var s' := AfterAssociate(s, o, actor, e, address, eni).value;
    var alloc := e.AllocationId().value;
    if alloc in s.aws.addrs {
      var s1 := s.(aws := Aws.Associate(s.aws, alloc, eni, actor.Ip().value));
      AssociateInv(c, s, alloc, eni, actor.Ip().value);
      forall p | p != o ensures Rely(s, s1, p) {
        AssociateRely(c, s, e, eni, actor.Ip().value, p);
      }
      AssociateTask(c, s, o, actor, e, address, eni);
      Advance(c, s, s1, s', o);
    } else {
      AdvanceQuietly(c, s, s', o);
    }
  }

  lemma AssociateTask(c: Config, s: State, o: Owner, actor: Actor, e: Eip, address: Address, eni: string)
    requires TaskOk(c, s, o, Associate(actor, e, address, eni)) && e.AllocationId().value in s.aws.addrs
    ensures TaskNow(c, AfterAssociate(s, o, actor, e, address, eni).value, o)
  {
  }

  /** The late patch by name: if the name now belongs to another Eip, the address it speaks of is gone. */
  lemma RecordedAssociation(c: Config, s: State, e: Eip, association: nat)
    requires StoreInv(c, s) && e in s.kube.eipLog && Associated(s, e, association) && e.key in s.kube.eips
    ensures GoodUpdate(c, s, s.kube.eips[e.key].(
              status := Some(Kube.CurrentStatus(s.kube, e.key).(associationId := Some(association)))))
  {
    var cur := s.kube.eips[e.key];
    var alloc := e.AllocationId().value;
    assert StatusOk(c, cur) && AllocationOk(s, cur) && AllocationOk(s, e) && PodClaimOk(s, e.key);
    if alloc in s.aws.addrs {
      assert Owned(c, s, alloc);
    }
  }

  lemma RecordAssociationTask(c: Config, s: State, o: Owner, actor: Actor, e: Eip, address: Address, association: nat)
    requires TaskOk(c, s, o, RecordAssociation(actor, e, address, association))
    requires Kube.SetStatusAssociationId(s.kube, e.key, association).Ok?
    ensures TaskNow(c, AfterRecordAssociation(s, o, actor, e, address, association).value, o)
  {
  }

  lemma RecordAssociationStep(c: Config, s: State, o: Owner, actor: Actor, e: Eip, address: Address, association: nat)
    requires Inv(c, s) && s.phase.Running? && TaskOk(c, s, o, RecordAssociation(actor, e, address, association))
    ensures Inv(c, AfterRecordAssociation(s, o, actor, e, address, association).value)
  {
    hide LogOk, CurrentOk, LinksOk, WatchOk, PodsOk, AwsOk, OnePerUid, PhaseOk, TasksOk, RelyOthers;
    var s' := AfterRecordAssociation(s, o, actor, e, address, association).value;
    var r := Kube.SetStatusAssociationId(s.kube, e.key, association);
    if r.Ok? {
      RecordedAssociation(c, s, e, association);
      WriteOk(c, s, e.key, Kube.CurrentStatus(s.kube, e.key).(associationId := Some(association)), o);
      RecordAssociationTask(c, s, o, actor, e, address, association);
      Advance(c, s, s.(kube := r.value), s', o);
    } else {
      AdvanceQuietly(c, s, s', o);
    }
  }

  lemma AnnotateStep(c: Config, s: State, o: Owner, p: Pod, alloc: nat, publicIp: string)
    requires Inv(c, s) && s.phase.Running?
    ensures Inv(c, AfterPodAnnotate(s, o, p, alloc, publicIp).value)
  {
    hide LogOk, CurrentOk, LinksOk, WatchOk, AwsOk, OnePerUid, PhaseOk, TasksOk;
    var s' := AfterPodAnnotate(s, o, p, alloc, publicIp).value;
    var a := Annotation(alloc, publicIp);
    if p.key in s.kube.pods && s.kube.pods[p.key].annotation != Some(a) {
      var q := s.kube.pods[p.key].(annotation := Some(a));
      PutPodInv(c, s, q);
      forall x | x != o ensures Rely(s, PodPut(s, q), x) {
        PutPodRely(c, s, q, x);
      }
      Advance(c, s, PodPut(s, q), s', o);
    } else {
      AdvanceQuietly(c, s, s', o);
    }
  }

  lemma ApplyStep(c: Config, s: State, o: Owner, t: Task, choice: Choice)
    requires Inv(c, s) && s.phase.Running? && TaskOk(c, s, o, t)
    requires !EipTask(t) && !CleanupTask(t) && RunTask(c, s, o, t, choice).Some?
    ensures Inv(c, RunTask(c, s, o, t, choice).value)
  {
    hide Inv, StoreInv, TasksOk, PhaseOk, TaskOk, AfterPodCreateEip, AfterPodLocate, AfterPodList, AfterNodeList,
         AfterNotReady, AfterDescribe, AfterNodeLocate, AfterClaim, AfterAssociate, AfterRecordAssociation,
         AfterPodAnnotate;
    match t {
      case PodCreateEip(p) => CreateEipStep(c, s, o, p);
      case NotReady(n, e) => NotReadyStep(c, s, o, n, e);
      case Claim(actor, e, address, eni) => ClaimStep(c, s, o, actor, e, address, eni);
      case Associate(actor, e, address, eni) => AssociateStep(c, s, o, actor, e, address, eni);
      case RecordAssociation(actor, e, address, id) => RecordAssociationStep(c, s, o, actor, e, address, id);
      case PodAnnotate(p, alloc, publicIp) => AnnotateStep(c, s, o, p, alloc, publicIp);
      case PodList(p, eni) => PodListStep(c, s, o, p, eni, choice);
      case NodeList(n) => NodeListStep(c, s, o, n, choice);
      case PodLocate(p) => LocateStep(c, s, o, p, choice);
      case Describe(actor, e, eni) => DescribedStep(c, s, o, actor, e, eni);
      case NodeLocate(n, e, address) => NodeLocateStep(c, s, o, n, e, address, choice);
      case _ =>
    }
  }

  // ---- Cleanup ----

  lemma ClaimedTargets(c: Config, s: State, actor: Actor, keys: seq<Key>)
    requires StoreInv(c, s) && ActorCleaning(c, s, actor) && Kube.Lists(s.kube, actor.Ns(c), keys)
    ensures Cleans(c, s, actor, Claimed(s.kube.eips, keys, actor))
  {
    var todo := Claimed(s.kube.eips, keys, actor);
    forall i | 0 <= i < |todo| ensures Target(c, s, actor, todo[i]) && todo[i].ResourceId() == Some(actor.Name()) {
      assert todo[i] in todo;
      var j :| 0 <= j < |keys| && s.kube.eips[keys[j]] == todo[i];
      assert StatusOk(c, todo[i]);
      ListedTarget(c, s, actor, keys[j]);
    }
    forall key | key in s.kube.eips && ToFree(actor, s.kube.eips[key])
      ensures exists i :: 0 <= i < |todo| && todo[i].key == key
    {
      assert StatusOk(c, s.kube.eips[key]);
      var j :| 0 <= j < |keys| && keys[j] == key;
      assert s.kube.eips[keys[j]] in todo;
      var i :| 0 <= i < |todo| && todo[i] == s.kube.eips[key];
      assert todo[i].key == key;
    }
  }

  lemma CleansSame(c: Config, s: State, s': State, actor: Actor, todo: seq<Eip>)
    requires Cleans(c, s, actor, todo) && SameStores(s, s')
    ensures Cleans(c, s', actor, todo)
  {
    forall i | 0 <= i < |todo| ensures Target(c, s', actor, todo[i]) {
      TargetSame(c, s, s', actor, todo[i]);
    }
  }

  lemma CleanupListStep(c: Config, s: State, o: Owner, actor: Actor, choice: Choice)
    requires Inv(c, s) && s.phase.Running? && TaskOk(c, s, o, CleanupList(actor))
    requires AfterCleanupList(c, s, o, actor, choice).Some?
    ensures Inv(c, AfterCleanupList(c, s, o, actor, choice).value)
  {
    hide LogOk, CurrentOk, LinksOk, WatchOk, PodsOk, AwsOk, OnePerUid, PhaseOk, TasksOk, RelyOthers, Kube.Select,
         Claimed, Target;
    var s' := AfterCleanupList(c, s, o, actor, choice).value;
    ClaimedTargets(c, s, actor, choice.keys);
    CleansSame(c, s, s', actor, Claimed(s.kube.eips, choice.keys, actor));
    AdvanceQuietly(c, s, s', o);
  }

  /** What the listing shows of the first address is its association. */
  lemma HeadDescribed(s: State, s': State, todo: seq<Eip>)
    requires AwsOk(s.aws) && s'.aws == s.aws && todo != [] && todo[0].AllocationId().Some?
    requires todo[0].AllocationId().value in s.aws.addrs
    ensures var a := s.aws.addrs[todo[0].AllocationId().value];
            && HeadAssociation(s', todo, Aws.AssociationOf(a))
            && (a.association.Some? ==> Associated(s', todo[0], a.association.value.id))
  {
  }

  lemma CleanupDescribeTask(c: Config, s: State, o: Owner, actor: Actor, todo: seq<Eip>)
    requires TaskOk(c, s, o, CleanupDescribe(actor, todo)) && AwsOk(s.aws)
    ensures TaskNow(c, AfterCleanupDescribe(s, o, actor, todo).value, o)
  {
    hide AwsOk, Cleans, HeadAssociation, Associated, Applying, Cleaning, Attaching, Target, Remaining, Found,
         NoAddress, Stray, Outdated, ActorApplying, ActorCleaning;
    var s' := AfterCleanupDescribe(s, o, actor, todo).value;
    CleansSame(c, s, s', actor, todo);
    var alloc := todo[0].AllocationId();
    if alloc.Some? && alloc.value in s.aws.addrs {
      HeadDescribed(s, s', todo);
      var a := s.aws.addrs[alloc.value];
      var t := if a.association.Some? then CleanupDisassociate(actor, todo, a.association.value.id)
          else CleanupDetach(actor, todo);
      assert s' == Goto(s, o, t);
      assert TaskOk(c, s', o, t);
    }
  }

  lemma CleanupDescribeStep(c: Config, s: State, o: Owner, actor: Actor, todo: seq<Eip>)
    requires Inv(c, s) && s.phase.Running? && TaskOk(c, s, o, CleanupDescribe(actor, todo))
    ensures Inv(c, AfterCleanupDescribe(s, o, actor, todo).value)
  {
    hide LogOk, CurrentOk, LinksOk, WatchOk, PodsOk, AwsOk, OnePerUid, PhaseOk, TasksOk, RelyOthers;
    CleanupDescribeTask(c, s, o, actor, todo);
    AdvanceQuietly(c, s, AfterCleanupDescribe(s, o, actor, todo).value, o);
  }

  lemma HeadLoosed(s: State, s': State, todo: seq<Eip>, id: nat)
    requires HeadAssociation(s, todo, Some(id)) && s'.aws == Aws.Disassociate(s.aws, id)
    ensures HeadAssociation(s', todo, None)
  {
  }

  /** What a cleanup knows of its Eips does not depend on the addresses. */
  lemma CleansAnyAws(c: Config, s: State, s': State, actor: Actor, todo: seq<Eip>)
    requires Cleans(c, s, actor, todo) && s'.kube == s.kube && s'.seenPods == s.seenPods
    ensures Cleans(c, s', actor, todo)
  {
    forall i | 0 <= i < |todo| ensures Target(c, s', actor, todo[i]) {
      assert Target(c, s, actor, todo[i]);
    }
  }

  lemma CleanupDisassociateTask(c: Config, s: State, o: Owner, actor: Actor, todo: seq<Eip>, association: nat)
    requires TaskOk(c, s, o, CleanupDisassociate(actor, todo, association))
    ensures TaskNow(c, AfterCleanupDisassociate(s, o, actor, todo, association).value, o)
  {
    hide Cleans, HeadAssociation, Associated, Applying, Cleaning, Attaching, Target, Remaining, Found, NoAddress,
         Stray, Outdated, ActorApplying, ActorCleaning;
    var s' := AfterCleanupDisassociate(s, o, actor, todo, association).value;
    CleansAnyAws(c, s, s', actor, todo);
    HeadLoosed(s, s', todo, association);
    assert TaskOk(c, s', o, CleanupDetach(actor, todo));
  }

  lemma CleanupDisassociateStep(c: Config, s: State, o: Owner, actor: Actor, todo: seq<Eip>, association: nat)
    requires Inv(c, s) && s.phase.Running? && TaskOk(c, s, o, CleanupDisassociate(actor, todo, association))
    ensures Inv(c, AfterCleanupDisassociate(s, o, actor, todo, association).value)
  {
    hide LogOk, CurrentOk, LinksOk, WatchOk, PodsOk, AwsOk, OnePerUid, PhaseOk, TasksOk, RelyOthers;
    CleanupDisassociateTask(c, s, o, actor, todo, association);
    DropAssociation(c, s, association, o);
    Advance(c, s, s.(aws := Aws.Disassociate(s.aws, association)),
            AfterCleanupDisassociate(s, o, actor, todo, association).value, o);
  }

  /** Detaching the head withdraws its claim and leaves the rest to be dealt with. */
  lemma DetachHead(c: Config, s: State, s': State, actor: Actor, todo: seq<Eip>)
    requires Cleans(c, s, actor, todo) && todo != [] && StoreInv(c, s)
    requires Kube.SetStatusDetached(s.kube, todo[0]).Ok? && s.kube.eips[todo[0].key] == todo[0]
    requires s'.kube == Kube.SetStatusDetached(s.kube, todo[0]).value
    requires s'.seenPods == s.seenPods
    ensures Cleans(c, s', actor, todo[1..])
  {
    hide StoreInv, Covered;
    CoveredRest(s, s', actor, todo);
    forall i | 0 <= i < |todo[1..]| ensures Target(c, s', actor, todo[1..][i]) {
      assert Target(c, s, actor, todo[i + 1]);
    }
  }

  lemma CoveredRest(s: State, s': State, actor: Actor, todo: seq<Eip>)
    requires Covered(s, actor, todo) && todo != []
    requires Kube.SetStatusDetached(s.kube, todo[0]).Ok? && s.kube.eips[todo[0].key] == todo[0]
    requires s'.kube == Kube.SetStatusDetached(s.kube, todo[0]).value
    ensures Covered(s', actor, todo[1..])
  {
    var e := todo[0];
    forall key | key in s'.kube.eips && ToFree(actor, s'.kube.eips[key])
      ensures exists i :: 0 <= i < |todo[1..]| && todo[1..][i].key == key
    {
      assert key != e.key && s.kube.eips[key] == s'.kube.eips[key];
      var i :| 0 <= i < |todo| && todo[i].key == key;
      assert todo[1..][i - 1].key == key;
    }
  }

  lemma CleanupDetachTask(c: Config, s: State, o: Owner, actor: Actor, todo: seq<Eip>)
    requires StoreInv(c, s) && TaskOk(c, s, o, CleanupDetach(actor, todo))
    requires Kube.SetStatusDetached(s.kube, todo[0]).Ok? && s.kube.eips[todo[0].key] == todo[0]
    ensures TaskNow(c, AfterCleanupDetach(s, o, actor, todo).value, o)
  {
    hide LogOk, CurrentOk, LinksOk, WatchOk, PodsOk, AwsOk, OnePerUid, Target, Covered, ActorCleaning, Kube.WriteStatus;
    DetachHead(c, s, AfterCleanupDetach(s, o, actor, todo).value, actor, todo);
  }

  lemma CleanupDetachStep(c: Config, s: State, o: Owner, actor: Actor, todo: seq<Eip>)
    requires Inv(c, s) && s.phase.Running? && TaskOk(c, s, o, CleanupDetach(actor, todo))
    ensures Inv(c, AfterCleanupDetach(s, o, actor, todo).value)
  {
    hide LogOk, CurrentOk, LinksOk, WatchOk, PodsOk, AwsOk, OnePerUid, PhaseOk, TasksOk, RelyOthers, TaskNow,
         Covered, Kube.WriteStatus;
    var s' := AfterCleanupDetach(s, o, actor, todo).value;
    assert Target(c, s, actor, todo[0]);
    if Kube.SetStatusDetached(s.kube, todo[0]).Ok? {
      DetachOk(c, s, todo[0], o);
      CleanupDetachTask(c, s, o, actor, todo);
      Advance(c, s, s.(kube := Kube.SetStatusDetached(s.kube, todo[0]).value), s', o);
    } else {
      EndQuietly(c, s, o);
    }
  }

  lemma DeleteOk(c: Config, s: State, key: Key, o: Owner)
    requires StoreInv(c, s)
    ensures StoreInv(c, s.(kube := Kube.DeleteEip(s.kube, key))) && Rely(s, s.(kube := Kube.DeleteEip(s.kube, key)), o)
  {
    var s' := s.(kube := Kube.DeleteEip(s.kube, key));
    if key !in s.kube.eips || (s.kube.eips[key].finalizer && s.kube.eips[key].deleting) {
      assert s' == s;
      NoChangeRely(s, o);
    } else if !s.kube.eips[key].finalizer {
      RemoveInv(c, s, key);
      RemoveRely(s, key, o);
    } else {
      MarkDeleting(c, s, key);
      PutInv(c, s, s.kube.eips[key].(deleting := true));
      PutRely(c, s, s.kube.eips[key].(deleting := true), o);
    }
  }

  lemma MarkDeleting(c: Config, s: State, key: Key)
    requires StoreInv(c, s) && key in s.kube.eips
    ensures GoodUpdate(c, s, s.kube.eips[key].(deleting := true))
    ensures !s.kube.eips[key].deleting ==> GoodUpdate(c, s, s.kube.eips[key].(finalizer := true))
  {
    var e := s.kube.eips[key];
    assert StatusOk(c, e) && AllocationOk(s, e) && AssociationOk(s, e) && PodClaimOk(s, key);
  }

  /** A pod's Eip is deleted by its name; claims stay as they are. */
  lemma TailCleans(c: Config, s: State, s': State, actor: Actor)
    requires Cleans(c, s, actor, []) && CurrentOk(s.kube) && s'.kube == Tail(s.kube, actor) && s'.seenPods == s.seenPods
    ensures Cleans(c, s', actor, [])
  {
  }

  lemma TailTask(c: Config, s: State, o: Owner, actor: Actor)
    requires TaskOk(c, s, o, CleanupTail(actor)) && CurrentOk(s.kube)
    ensures TaskNow(c, AfterCleanupTail(s, o, actor).value, o)
  {
    hide Applying, Cleaning, Attaching, Remaining, Found, NoAddress, Stray, Outdated, ActorApplying, HeadAssociation,
         Associated, Target, Cleans, CurrentOk, Tail;
    if actor.NodeActor? ==> actor.node.name in s.kube.nodes {
      var s' := AfterCleanupTail(s, o, actor).value;
      TailCleans(c, s, s', actor);
      assert TaskOk(c, s', o, Finalize(actor));
    }
  }

  lemma CleanupTailStep(c: Config, s: State, o: Owner, actor: Actor)
    requires Inv(c, s) && s.phase.Running? && TaskOk(c, s, o, CleanupTail(actor))
    ensures Inv(c, AfterCleanupTail(s, o, actor).value)
  {
    hide LogOk, CurrentOk, LinksOk, WatchOk, PodsOk, AwsOk, OnePerUid, PhaseOk, TasksOk;
    var s' := AfterCleanupTail(s, o, actor).value;
    TailTask(c, s, o, actor);
    if actor.PodActor? && actor.pod.autocreate {
      var s1 := s.(kube := Kube.DeleteEip(s.kube, actor.pod.key));
      forall p ensures StoreInv(c, s1) && Rely(s, s1, p) {
        DeleteOk(c, s, actor.pod.key, p);
      }
      DeleteOk(c, s, actor.pod.key, o);
      Advance(c, s, s1, s', o);
    } else if actor.NodeActor? && actor.node.name in s.kube.nodes {
      var s1 := s.(kube := Kube.LabelNode(s.kube, actor.node.name, "false").value);
      NodesOk(c, s, s1.kube.nodes);
      Advance(c, s, s1, s', o);
    } else {
      AdvanceQuietly(c, s, s', o);
    }
  }

  lemma NodesOk(c: Config, s: State, nodes: map<string, Node>)
    requires StoreInv(c, s)
    ensures StoreInv(c, s.(kube := s.kube.(nodes := nodes)))
    ensures forall o {:trigger Rely(s, s.(kube := s.kube.(nodes := nodes)), o)} ::
              Rely(s, s.(kube := s.kube.(nodes := nodes)), o)
  {
    var s' := s.(kube := s.kube.(nodes := nodes));
    PodWriteLinks(c, s, s');
    forall a | PodStartable(s', a) ensures PodAlive(s', a) {
      assert PodStartable(s, a);
    }
    forall k | k in s'.kube.eips ensures PodClaimOk(s', k) {
      assert PodClaimOk(s, k);
    }
  }

  lemma NobodyNames(c: Config, s: State, p: Pod)
    requires StoreInv(c, s) && Covered(s, PodActor(p), [])
    ensures forall k :: k in s.kube.eips && k.ns == p.key.ns ==> s.kube.eips[k].ResourceId() != Some(p.key.name)
  {
    hide LogOk, LinksOk, WatchOk, PodsOk, AwsOk, OnePerUid;
    forall k | k in s.kube.eips && k.ns == p.key.ns ensures s.kube.eips[k].ResourceId() != Some(p.key.name) {
      assert !ToFree(PodActor(p), s.kube.eips[k]);
    }
  }

  lemma FinalizeActorStep(c: Config, s: State, o: Owner, actor: Actor)
    requires Inv(c, s) && s.phase.Running? && TaskOk(c, s, o, Finalize(actor))
    ensures Inv(c, AfterFinalize(s, o, actor).value)
  {
    hide LogOk, CurrentOk, LinksOk, WatchOk, PodsOk, AwsOk, OnePerUid, PhaseOk, TasksOk;
    var s' := AfterFinalize(s, o, actor).value;
    if actor.PodActor? && actor.pod.key in s.kube.pods && s.kube.pods[actor.pod.key].uid == actor.pod.uid {
      var key := actor.pod.key;
      NobodyNames(c, s, actor.pod);
      RemovePodInv(c, s, key);
      forall p | p != o ensures Rely(s, PodRemoved(s, key), p) {
        RemovePodRely(s, key, p);
      }
      Advance(c, s, PodRemoved(s, key), s', o);
    } else {
      AdvanceQuietly(c, s, s', o);
    }
  }

  lemma CleanupStep(c: Config, s: State, o: Owner, t: Task, choice: Choice)
    requires Inv(c, s) && s.phase.Running? && TaskOk(c, s, o, t)
    requires CleanupTask(t) && RunTask(c, s, o, t, choice).Some?
    ensures Inv(c, RunTask(c, s, o, t, choice).value)
  {
    hide Inv, StoreInv, TasksOk, PhaseOk, TaskOk, AfterCleanupList, AfterCleanupDescribe, AfterCleanupDisassociate,
         AfterCleanupDetach, AfterCleanupTail, AfterFinalize, AfterEipDescribe, AfterEipAllocate, AfterEipRecord,
         AfterEipList, AfterEipDisassociate, AfterEipDetach, AfterEipSweep, AfterEipRelease, AfterEipFinalize,
         AfterPodCreateEip, AfterPodLocate, AfterPodList, AfterNodeList, AfterNotReady, AfterDescribe,
         AfterNodeLocate, AfterClaim, AfterAssociate, AfterRecordAssociation, AfterPodAnnotate;
    match t {
      case CleanupList(actor) => CleanupListStep(c, s, o, actor, choice);
      case CleanupDescribe(actor, todo) => CleanupDescribeStep(c, s, o, actor, todo);
      case CleanupDisassociate(actor, todo, id) => CleanupDisassociateStep(c, s, o, actor, todo, id);
      case CleanupDetach(actor, todo) => CleanupDetachStep(c, s, o, actor, todo);
      case CleanupTail(actor) => CleanupTailStep(c, s, o, actor);
      case Finalize(actor) => FinalizeActorStep(c, s, o, actor);
      case _ =>
    }
  }
}
