/** What holds in every state the operator can reach: of the stores, and of the copies each task holds. */
module Invariants {
  import opened Base
  import opened Protocol
  import Kube
  import Aws

  // ---- The Eip store and its log ----

  /** A later state of the same object: deletion, the finalizer and the allocation are never undone. */
  ghost predicate Grows(a: Eip, b: Eip) {
    && a.key == b.key && a.selector == b.selector
    && (a.deleting ==> b.deleting)
    && (a.finalizer ==> b.finalizer)
    && (a.AllocationId().Some? ==>
          b.AllocationId() == a.AllocationId() && b.status.value.publicIp == a.status.value.publicIp)
  }

  predicate SameVersion(a: Eip, b: Eip) {
    a.version == b.version
  }

  ghost predicate LogOk(k: Kube.Store) {
    && (forall e :: e in k.eipLog ==>
          e.version < k.next && e.uid < k.next && e.uid in k.homes && k.homes[e.uid] == e.key)
    && (forall a, b {:trigger SameVersion(a, b)} :: a in k.eipLog && b in k.eipLog && SameVersion(a, b) ==> a == b)
    && (forall a, b {:trigger Grows(a, b)} ::
          a in k.eipLog && b in k.eipLog && a.uid == b.uid && a.version <= b.version ==> Grows(a, b))
    && (forall u :: u in k.homes ==> u < k.next)
  }

  predicate UpTo(a: Eip, current: Eip) {
    a.uid == current.uid ==> a.version <= current.version
  }

  ghost predicate CurrentOk(k: Kube.Store) {
    && (forall key :: key in k.eips ==> k.eips[key].key == key && k.eips[key] in k.eipLog)
    && (forall key, a {:trigger UpTo(a, k.eips[key])} :: key in k.eips && a in k.eipLog ==> UpTo(a, k.eips[key]))
  }

  /** A claim names a resource of the selected kind and is made only once there is an address. */
  ghost predicate StatusOk(c: Config, e: Eip) {
    && (e.status.Some? ==> (e.status.value.allocationId.Some? <==> e.status.value.publicIp.Some?))
    && (e.ResourceId().Some? ==> e.AllocationId().Some?)
    && (e.ResourceId().Some? && e.selector.PodSelector? ==> e.ResourceId().value == e.selector.podName)
    && (e.ResourceId().Some? && e.selector.NodeSelector? ==>
          e.ResourceId().value in c.nodeNames && e.key.ns == c.NodeNs())
  }

  // ---- Addresses ----

  ghost predicate AwsOk(a: Aws.Cloud) {
    && (forall x :: x in a.addrs ==> x in a.issued && a.issued[x] == a.addrs[x].uid)
    && (forall x :: x in a.addrs && a.addrs[x].association.Some? ==>
          a.addrs[x].association.value.id in a.minted && a.minted[a.addrs[x].association.value.id] == x)
    && (forall x :: x in a.issued ==> x < a.next)
    && (forall i :: i in a.minted ==> i < a.next && a.minted[i] in a.issued)
  }

  /** No two addresses carry the same uid. */
  ghost predicate OnePerUid(a: Aws.Cloud) {
    forall x, y :: x in a.addrs && y in a.addrs && a.addrs[x].uid == a.addrs[y].uid ==> x == y
  }

  // ---- Between the stores ----

  ghost predicate AllocationOk(s: State, e: Eip) {
    e.AllocationId().Some? ==>
      var alloc := e.AllocationId().value;
      && alloc in s.aws.issued && s.aws.issued[alloc] == e.uid
      && (e.uid !in s.condemned ==> alloc in s.aws.addrs)
      && (alloc in s.aws.addrs ==> e.status.value.publicIp == Some(s.aws.addrs[alloc].publicIp))
  }

  /** A recorded association is one of this Eip's own address, or of an address that is gone. */
  ghost predicate AssociationOk(s: State, e: Eip) {
    e.AssociationId().Some? ==>
      var id := e.AssociationId().value;
      && id in s.aws.minted && s.aws.minted[id] in s.aws.issued
      && (s.aws.minted[id] in s.aws.addrs ==> s.aws.issued[s.aws.minted[id]] == e.uid)
  }

  /** The object this is a copy of still exists, with its finalizer. */
  ghost predicate Alive(s: State, e: Eip) {
    e.key in s.kube.eips && s.kube.eips[e.key].uid == e.uid && s.kube.eips[e.key].finalizer
  }

  /** No leak: every address belongs to an Eip that exists and has its finalizer. */
  ghost predicate Owned(c: Config, s: State, x: nat)
    requires x in s.aws.addrs
  {
    var u := s.aws.addrs[x].uid;
    && u in s.kube.homes && s.kube.homes[u] in s.kube.eips
    && s.kube.eips[s.kube.homes[u]].uid == u && s.kube.eips[s.kube.homes[u]].finalizer
    && s.aws.addrs[x].ns == s.kube.homes[u].ns && c.InScope(s.aws.addrs[x].ns)
  }

  ghost predicate LinksOk(c: Config, s: State) {
    && (forall e {:trigger StatusOk(c, e)} :: e in s.kube.eipLog ==> StatusOk(c, e))
    && (forall e {:trigger AllocationOk(s, e)} :: e in s.kube.eipLog ==> AllocationOk(s, e))
    && (forall e {:trigger AssociationOk(s, e)} :: e in s.kube.eipLog ==> AssociationOk(s, e))
    && (forall x {:trigger Owned(c, s, x)} :: x in s.aws.addrs ==> Owned(c, s, x))
  }

  /** The controller may still start an apply from this copy. */
  ghost predicate Startable(s: State, e: Eip) {
    e in s.kube.eipLog && e.finalizer && !e.deleting && Seen(s.seenEips, e.key) <= e.version
  }

  ghost predicate WatchOk(s: State) {
    && (forall e {:trigger Startable(s, e)} :: Startable(s, e) ==> Alive(s, e) && e.uid !in s.condemned)
    && (forall key :: key in s.kube.eips && s.kube.eips[key].uid in s.condemned ==> s.kube.eips[key].deleting)
    && (forall u :: u in s.condemned ==> u < s.kube.next)
  }

  // ---- Pods ----

  ghost predicate PodGrows(a: Pod, b: Pod) {
    a.key == b.key && (a.deleting ==> b.deleting) && (a.finalizer ==> b.finalizer)
  }

  predicate PodUpTo(a: Pod, current: Pod) {
    a.uid == current.uid ==> a.version <= current.version
  }

  ghost predicate PodLogOk(c: Config, k: Kube.Store) {
    && (forall p :: p in k.podLog ==> p.version < k.next && p.uid < k.next && p.key.name !in c.nodeNames)
    && (forall a, b {:trigger PodGrows(a, b)} ::
          a in k.podLog && b in k.podLog && a.uid == b.uid && a.version <= b.version ==> PodGrows(a, b))
    && (forall key :: key in k.pods ==> k.pods[key].key == key && k.pods[key] in k.podLog)
    && (forall key, a {:trigger PodUpTo(a, k.pods[key])} :: key in k.pods && a in k.podLog ==> PodUpTo(a, k.pods[key]))
  }

  ghost predicate PodAlive(s: State, p: Pod) {
    p.key in s.kube.pods && s.kube.pods[p.key].uid == p.uid && s.kube.pods[p.key].finalizer
  }

  ghost predicate PodStartable(s: State, p: Pod) {
    p in s.kube.podLog && p.finalizer && !p.deleting && Seen(s.seenPods, p.key) <= p.version
  }

  /** A claim by a pod names a pod that exists, with its finalizer. */
  ghost predicate PodClaimOk(s: State, key: Key)
    requires key in s.kube.eips
  {
    var e := s.kube.eips[key];
    e.selector.PodSelector? && e.ResourceId().Some? ==>
      Key(key.ns, e.selector.podName) in s.kube.pods && s.kube.pods[Key(key.ns, e.selector.podName)].finalizer
  }

  ghost predicate PodsOk(c: Config, s: State) {
    && PodLogOk(c, s.kube)
    && (forall p {:trigger PodStartable(s, p)} :: PodStartable(s, p) ==> PodAlive(s, p))
    && (forall key {:trigger PodClaimOk(s, key)} :: key in s.kube.eips ==> PodClaimOk(s, key))
  }

  // ---- Startup ----

  /** The sweep at startup finds nothing to release. */
  ghost predicate PhaseOk(c: Config, s: State) {
    && (!s.phase.Running? ==> s.tasks == map[])
    && (s.phase.Swept? ==> forall x :: x in s.phase.found ==>
          x in s.aws.addrs && s.phase.found[x].uid == s.aws.addrs[x].uid)
    && (s.phase.Releasing? ==> s.phase.orphans == [])
  }

  ghost predicate StoreInv(c: Config, s: State) {
    && LogOk(s.kube) && CurrentOk(s.kube) && AwsOk(s.aws) && OnePerUid(s.aws)
    && LinksOk(c, s) && WatchOk(s) && PodsOk(c, s)
  }

  // ---- Tasks ----

  ghost predicate Applying(c: Config, s: State, e: Eip) {
    e in s.kube.eipLog && e.finalizer && !e.deleting && Alive(s, e) && e.uid !in s.condemned && c.InScope(e.key.ns)
  }

  ghost predicate Cleaning(s: State, e: Eip) {
    e in s.kube.eipLog && e.finalizer && e.deleting && e.uid in s.condemned && e.version <= Seen(s.seenEips, e.key)
  }

  ghost predicate ActorApplying(c: Config, s: State, actor: Actor) {
    match actor
    case PodActor(p) => p in s.kube.podLog && p.finalizer && !p.deleting && PodAlive(s, p) && c.InScope(p.key.ns)
    case NodeActor(n) => n.name in c.nodeNames
  }

  ghost predicate ActorCleaning(c: Config, s: State, actor: Actor) {
    match actor
    case PodActor(p) => p in s.kube.podLog && p.finalizer && p.deleting && p.version <= Seen(s.seenPods, p.key)
    case NodeActor(n) => n.name in c.nodeNames
  }

  /** The Eip's selector is of the kind this owner's tasks act on: its pod, or some node. */
  ghost predicate Mine(o: Owner, e: Eip) {
    match o
    case PodOwner(p) => e.selector == PodSelector(p.name) && e.key.ns == p.ns
    case NodeOwner => e.selector.NodeSelector?
    case EipOwner(_) => false
  }

  ghost predicate NoneOr(r: Option<string>, name: string) {
    r == None || r == Some(name)
  }

  /** Move safety: if the Eip still exists, nobody but `actor` claims it. */
  ghost predicate MoveSafe(s: State, actor: Actor, e: Eip) {
    e.key in s.kube.eips && s.kube.eips[e.key].uid == e.uid ==> NoneOr(s.kube.eips[e.key].ResourceId(), actor.Name())
  }

  ghost predicate Target(c: Config, s: State, actor: Actor, e: Eip) {
    && e in s.kube.eipLog && Mine(actor.Owner(), e) && e.key.ns == actor.Ns(c)
    && NoneOr(e.ResourceId(), actor.Name()) && MoveSafe(s, actor, e)
  }

  ghost predicate Targets(c: Config, s: State, actor: Actor, todo: seq<Eip>) {
    forall i :: 0 <= i < |todo| ==> Target(c, s, actor, todo[i]) && todo[i].ResourceId() == Some(actor.Name())
  }

  /** An Eip that the resource's cleanup has to free. */
  predicate ToFree(actor: Actor, e: Eip) {
    ClaimedBy(actor)(e) && (actor.PodActor? ==> e.key.ns == actor.pod.key.ns)
  }

  /** Every Eip that has to be freed is still to be dealt with. */
  ghost predicate Covered(s: State, actor: Actor, todo: seq<Eip>) {
    forall key :: key in s.kube.eips && ToFree(actor, s.kube.eips[key]) ==>
        exists i :: 0 <= i < |todo| && todo[i].key == key
  }

  ghost predicate NoAddress(s: State, uid: nat) {
    forall x :: x in s.aws.addrs ==> s.aws.addrs[x].uid != uid
  }

  ghost predicate Remaining(s: State, uid: nat, found: seq<(nat, Option<nat>)>) {
    && (forall i :: 0 <= i < |found| ==> found[i].0 in s.aws.issued && s.aws.issued[found[i].0] == uid)
    && (forall i :: 0 <= i < |found| && found[i].1.Some? ==>
          found[i].1.value in s.aws.minted && s.aws.minted[found[i].1.value] == found[i].0)
    && (forall x :: x in s.aws.addrs && s.aws.addrs[x].uid == uid ==> exists i :: 0 <= i < |found| && found[i].0 == x)
  }

  ghost predicate Attaching(c: Config, s: State, actor: Actor, e: Eip) {
    ActorApplying(c, s, actor) && Target(c, s, actor, e) && e.AllocationId().Some?
  }

  /** The association of the address that the head of the list records. */
  ghost predicate HeadAssociation(s: State, todo: seq<Eip>, allowed: Option<nat>) {
    && todo != [] && todo[0].AllocationId().Some?
    && (todo[0].AllocationId().value in s.aws.addrs ==>
          var a := s.aws.addrs[todo[0].AllocationId().value];
          a.association.Some? ==> Aws.AssociationOf(a) == allowed)
  }

  ghost predicate Cleans(c: Config, s: State, actor: Actor, todo: seq<Eip>) {
    ActorCleaning(c, s, actor) && Targets(c, s, actor, todo) && Covered(s, actor, todo)
  }

  ghost predicate Found(s: State, e: Eip, alloc: nat, publicIp: string) {
    alloc in s.aws.addrs && s.aws.addrs[alloc].uid == e.uid && s.aws.addrs[alloc].publicIp == publicIp
  }

  /** The copy's claim names a resource that the listing did not contain. */
  ghost predicate Stray(e: Eip, listed: set<string>) {
    e.ResourceId().Some? && e.ResourceId().value !in listed
  }

  /** This copy is the current object. */
  predicate Current(s: State, e: Eip) {
    e.key in s.kube.eips && s.kube.eips[e.key].version == e.version
  }

  /** A copy whose pod was missing from the listing is out of date. */
  predicate Outdated(s: State, e: Eip) {
    e.selector.PodSelector? ==> !Current(s, e)
  }

  ghost predicate Associated(s: State, e: Eip, association: nat) {
    e.AllocationId().Some? && association in s.aws.minted && s.aws.minted[association] == e.AllocationId().value
  }

  /** What the task of owner `o` knows before its next call. */
  ghost predicate TaskOk(c: Config, s: State, o: Owner, t: Task) {
    match t
    case EipDescribe(e) => o == EipOwner(e.key) && Applying(c, s, e)
    case EipAllocate(e) => o == EipOwner(e.key) && Applying(c, s, e) && NoAddress(s, e.uid)
    case EipRecord(e, alloc, publicIp) => o == EipOwner(e.key) && Applying(c, s, e) && Found(s, e, alloc, publicIp)
    case EipList(e) => o == EipOwner(e.key) && Applying(c, s, e)
    case EipDisassociate(e, listed) =>
      o == EipOwner(e.key) && Applying(c, s, e) && Stray(e, listed) && Outdated(s, e) && e.AssociationId().Some?
    case EipDetach(e, listed) => o == EipOwner(e.key) && Applying(c, s, e) && Stray(e, listed) && Outdated(s, e)
    case EipRefresh(e, _) => o == EipOwner(e.key) && Applying(c, s, e)
    case EipSweep(e) => o == EipOwner(e.key) && Cleaning(s, e)
    case EipRelease(e, found) => o == EipOwner(e.key) && Cleaning(s, e) && Remaining(s, e.uid, found)
    case EipFinalize(e) => o == EipOwner(e.key) && Cleaning(s, e) && NoAddress(s, e.uid)
    case PodCreateEip(p) => o == PodOwner(p.key) && ActorApplying(c, s, PodActor(p))
    case PodLocate(p) => o == PodOwner(p.key) && ActorApplying(c, s, PodActor(p))
    case PodList(p, _) => o == PodOwner(p.key) && ActorApplying(c, s, PodActor(p))
    case NodeList(n) => o == NodeOwner && ActorApplying(c, s, NodeActor(n))
    case NotReady(n, e) => o == NodeOwner && ActorApplying(c, s, NodeActor(n)) && Target(c, s, NodeActor(n), e)
    case Describe(actor, e, eni) =>
      o == actor.Owner() && Attaching(c, s, actor, e) && (actor.PodActor? ==> eni.Some? && actor.Ip().Some?)
    case NodeLocate(n, e, _) => o == NodeOwner && Attaching(c, s, NodeActor(n), e)
    case Claim(actor, e, _, _) => o == actor.Owner() && Attaching(c, s, actor, e) && actor.Ip().Some?
    case Associate(actor, e, _, _) => o == actor.Owner() && Attaching(c, s, actor, e) && actor.Ip().Some?
    case RecordAssociation(actor, e, _, id) => o == actor.Owner() && Attaching(c, s, actor, e) && Associated(s, e, id)
    case PodAnnotate(p, _, _) => o == PodOwner(p.key) && ActorApplying(c, s, PodActor(p))
    case CleanupList(actor) => o == actor.Owner() && ActorCleaning(c, s, actor)
    case CleanupDescribe(actor, todo) => o == actor.Owner() && Cleans(c, s, actor, todo) && todo != []
    case CleanupDisassociate(actor, todo, id) =>
      o == actor.Owner() && Cleans(c, s, actor, todo) && HeadAssociation(s, todo, Some(id))
          && Associated(s, todo[0], id)
    case CleanupDetach(actor, todo) => o == actor.Owner() && Cleans(c, s, actor, todo) && HeadAssociation(s, todo, None)
    case CleanupTail(actor) => o == actor.Owner() && Cleans(c, s, actor, [])
    case Finalize(actor) => o == actor.Owner() && Cleans(c, s, actor, [])
  }

  ghost predicate TasksOk(c: Config, s: State) {
    forall o {:trigger TaskOk(c, s, o, s.tasks[o])} :: o in s.tasks ==> TaskOk(c, s, o, s.tasks[o])
  }

  ghost predicate Inv(c: Config, s: State) {
    StoreInv(c, s) && TasksOk(c, s) && PhaseOk(c, s)
  }
}
