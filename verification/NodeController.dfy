/** The node controller: `Apply` attaches an Eip to a ready node, `Cleanup` takes the node's Eips away. */
module NodeController {
  import opened Base
  import opened Protocol
  import opened Atomic
  import opened Uninterrupted
  import opened ReconcileCalls
  import opened Services
  import opened Detaching
  import Eni
  import Kube
  import Aws

  /** The interface of a node, looked up by its IP among its instance's interfaces. */
  function NodeInterface(ec2: Ec2, n: Node): Option<string> {
    if !UsableNode(n) then None
    else InterfaceOf(ec2.instances, InstanceId(n.providerId.value).value, n.ip.value)
  }

  // ---- What a reconcile means, in terms of the node and the stores ----

  /** The interface is the one of the node's instance that has its IP: the first one reported to have it. */
  predicate OwnInterface(instances: map<string, Eni.Description>, n: Node, eni: string) {
    && n.ip.Some? && n.providerId.Some? && InstanceId(n.providerId.value).Some?
    && var instance := InstanceId(n.providerId.value).value;
       instance in instances && Eni.IsFirstOwner(Eni.FirstNics(instances[instance]), n.ip.value, eni)
  }

  /** No interface of the node's instance is known to have its IP. */
  predicate NoInterface(instances: map<string, Eni.Description>, n: Node)
    requires UsableNode(n)
  {
    var instance := InstanceId(n.providerId.value).value;
    || instance !in instances || Eni.HasEmptyList(instances[instance])
    || forall nic :: nic in Eni.FirstNics(instances[instance]) ==> !Eni.Owns(nic, n.ip.value)
  }

  /** The Eip matches the node, and names no resource or that node. */
  predicate Takable(e: Eip, n: Node) {
    e.MatchesNode(n.labels) && e.status.Some? && (e.ResourceId() == None || e.ResourceId() == Some(n.name))
  }

  /** It is the first such Eip of the listing. */
  predicate IsChoice(eips: map<Key, Eip>, keys: seq<Key>, n: Node, key: Key) {
    && key in eips && Takable(eips[key], n)
    && exists i :: 0 <= i < |keys| && keys[i] == key
         && forall j :: 0 <= j < i && keys[j] in eips ==> !Takable(eips[keys[j]], n)
  }

  predicate NoneMatches(eips: map<Key, Eip>, ns: string, n: Node) {
    forall key :: key in eips && key.ns == ns ==> !eips[key].MatchesNode(n.labels)
  }

  /** The address is at the node: on its interface, at its IP. */
  predicate IsAtNode(instances: map<string, Eni.Description>, n: Node, a: Address) {
    a.association.Some? && n.ip == Some(a.association.value.ip) && OwnInterface(instances, n, a.association.value.eni)
  }

  /** The Eip's status tells of the claim, the place and the association of its address. */
  predicate Tells(e: Eip, n: Node, a: Address) {
    && e.status.Some? && a.association.Some?
    && var status, at := e.status.value, a.association.value;
       && status.resourceId == Some(n.name) && status.eni == Some(at.eni)
       && status.privateIp == Some(at.ip) && status.associationId == Some(at.id)
  }

  /** The address of the Eip is at the node. If it was there already nothing differs; else it has been moved, the
      status tells so, and nothing else differs, but what was in its place is loose. */
  predicate Brought(s: State, k: Kube.Store, a: Aws.Cloud, instances: map<string, Eni.Description>, n: Node, key: Key) {
    && OnlyEip(s.kube, k, key) && key in k.eips && key in s.kube.eips && s.kube.eips[key].AllocationId().Some?
    && var x := s.kube.eips[key].AllocationId().value;
       && OnlyMoves(s.aws, a, x) && x in a.addrs && IsAtNode(instances, n, a.addrs[x])
       && (x in s.aws.addrs && IsAtNode(instances, n, s.aws.addrs[x]) <==> a == s.aws)
       && if a == s.aws then k == s.kube else Tells(k.eips[key], n, a.addrs[x])
  }

  /** Only the node's choice may differ. */
  predicate OnlyChoice(k: Kube.Store, k': Kube.Store, keys: seq<Key>, n: Node) {
    && k'.eips.Keys == k.eips.Keys && k'.pods == k.pods && k'.nodes == k.nodes
    && forall key :: key in k.eips && k'.eips[key] != k.eips[key] ==> IsChoice(k.eips, keys, n, key)
  }

  /** What a ready node is answered when no call fails, its choice being the Eip. */
  predicate TakeReply(s: State, instances: map<string, Eni.Description>, n: Node, key: Key, r: Result<Action>)
    requires UsableNode(n)
  {
    key in s.kube.eips &&
    var x := s.kube.eips[key].AllocationId();
    && (x.None? ==> r == Err(MissingAllocationId))
    && (x.Some? && x.value !in s.aws.addrs ==> r == Err(NotFound))
    && (x.Some? && x.value in s.aws.addrs && NoInterface(instances, n) ==> r == Err(NoInterfaceWithThatIp))
    && (x.Some? && x.value in s.aws.addrs && !NoInterface(instances, n) ==> r == Ok(Await))
  }

  class Controller {
    const api: ApiServer
    const ec2: Ec2
    const namespace: Option<string>

    constructor (api: ApiServer, ec2: Ec2, namespace: Option<string>)
      ensures this.api == api && this.ec2 == ec2 && this.namespace == namespace
    {
      this.api := api;
      this.ec2 := ec2;
      this.namespace := namespace;
    }

    /** The reconcile is a run of the transition system from `s` to the stores it leaves, whatever calls
        fail. When none fails it does what `NodeApplied` and `NodeAnswer` say. In terms of the stores: only the
        first Eip of the listing that the node may take is touched, and no address is brought anywhere but to the
        node's own interface and IP; the answers are those of the clauses, each with its condition; and it is
        run again soon exactly if the claim was answered with a conflict. */
    method Apply(n: Node, ghost c: Config, ghost s: State)
      returns (r: Result<Action>, ghost run: seq<Step>, ghost keys: seq<Key>)
      requires c.namespace == namespace && n.name in c.nodeNames
      requires s.kube == api.store && s.aws == ec2.cloud && s.phase.Running? && NodeOwner !in s.tasks && Keyed(s.kube)
      modifies api, ec2
      ensures RunsTo(c, s, run, s.(kube := api.store, aws := ec2.cloud))
      ensures keys == [] || Kube.Lists(s.kube, c.NodeNs(), keys)
      ensures r == Ok(Await) || (api.reliable && ec2.reliable) ==>
                s.(kube := api.store, aws := ec2.cloud) == NodeApplied(s, n, keys, NodeInterface(ec2, n))
      ensures r == Ok(Requeue) ==> api.store == s.kube && ec2.cloud == s.aws
      ensures api.reliable && ec2.reliable ==>
                (UsableNode(n) ==> Kube.Lists(s.kube, c.NodeNs(), keys))
                    && r == NodeAnswer(s, n, keys, NodeInterface(ec2, n))
      ensures keys == [] || Kube.Lists(s.kube, if namespace.Some? then namespace.value else "default", keys)
      ensures OnlyChoice(s.kube, api.store, keys, n)
      ensures forall x :: Moved(s.aws, ec2.cloud, x) ==> IsAtNode(ec2.instances, n, ec2.cloud.addrs[x])
      ensures r == Ok(Await) ==>
                forall key :: IsChoice(s.kube.eips, keys, n, key) ==>
                  if n.ready == Some("True") then Brought(s, api.store, ec2.cloud, ec2.instances, n, key)
                  else OnlyStatus(s.kube, api.store, key, Kube.Cleared(s.kube.eips[key].status.value))
      ensures n.ready != Some("True") ==> ec2.cloud == s.aws
      ensures r == Ok(Await) ==>
                && Kube.Lists(s.kube, c.NodeNs(), keys) && !NoneMatches(s.kube.eips, c.NodeNs(), n) && n.ready.Some?
      ensures r == Ok(Requeue) <==> n.ready == Some("True") && api.answers == old(api.answers) + [Err(Conflict)]
      ensures n.ip.None? ==> r == Err(MissingNodeIp)
      ensures n.ip.Some? && n.providerId.None? ==> r == Err(MissingProviderId)
      ensures n.ip.Some? && n.providerId.Some? && '/' !in n.providerId.value ==> r == Err(MalformedProviderId)
      ensures api.reliable && ec2.reliable && UsableNode(n) ==>
                if NoneMatches(s.kube.eips, c.NodeNs(), n) then r == Err(NoEipResourceWithThatNodeSelector)
                else if n.ready.None? then r == Err(MissingNodeReadyCondition)
                else if n.ready != Some("True") then r == Ok(Await)
                else if forall key :: !IsChoice(s.kube.eips, keys, n, key) then r == Ok(Await)
                else forall key :: IsChoice(s.kube.eips, keys, n, key) ==> TakeReply(s, ec2.instances, n, key, r)
    {
      hide RunTask, Start, RunsTo, Reaches, IsChoice, OnlyEip, OnlyStatus, OnlyMoves, Moved, IsAtNode, Tells,
           NoInterface, NoneMatches, Brought, OnlyChoice, TakeReply, Kube.FirstFree, MatchingNode, Detach, NodePlaced;
      NothingMoves(s.aws);
      NoChange(s.kube, n);
      keys := [];
      NoChoice(s.kube.eips, n);
      run := NodeStarts(c, s, n, false);
      if n.ip.None? {
        run := Abort(c, s, run, s, NodeOwner, NodeList(n));
        return Err(MissingNodeIp), run, keys;
      }
      if n.providerId.None? {
        run := Abort(c, s, run, s, NodeOwner, NodeList(n));
        return Err(MissingProviderId), run, keys;
      }
      var instance := InstanceId(n.providerId.value);
      if instance.None? {
        run := Abort(c, s, run, s, NodeOwner, NodeList(n));
        return Err(MalformedProviderId), run, keys;
      }
      var listed := api.ListEips(if namespace.Some? then namespace.value else "default");
      if listed.Err? {
        run := Abort(c, s, run, s, NodeOwner, NodeList(n));
        return Err(listed.error), run, keys;
      }
      keys := listed.value;
      var matched := MatchingNode(api.store.eips, listed.value, n.labels);
      ChoiceIsFirst(s.kube, c.NodeNs(), keys, n);
      if matched == [] {
        run := Abort(c, s, run, s, NodeOwner, NodeList(n));
        return Err(NoEipResourceWithThatNodeSelector), run, keys;
      }
      var chosen := Kube.FirstFree(matched, n.name);
      if n.ready.None? {
        run := Abort(c, s, run, s, NodeOwner, NodeList(n));
        return Err(MissingNodeReadyCondition), run, keys;
      }
      if chosen.None? {
        run := Abort(c, s, run, s, NodeOwner, NodeList(n));
        return Ok(Await), run, keys;
      }
      var eip := chosen.value;
      if n.ready.value != "True" {
        run := NodeLists(c, s, run, s, n, keys, NotReady(n, eip));
        r, run := LetGo(n, eip, c, s, run);
        ChoiceOnly(s.kube, api.store, keys, n, eip.key);
        return r, run, keys;
      }
      if eip.AllocationId().None? {
        NoAddressReply(s, ec2.instances, n, eip.key);
        assert IsChoice(s.kube.eips, keys, n, eip.key);
        run := Abort(c, s, run, s, NodeOwner, NodeList(n));
        return Err(MissingAllocationId), run, keys;
      }
      run := NodeLists(c, s, run, s, n, keys, Describe(NodeActor(n), eip, None));
      r, run := Take(n, eip, instance.value, c, s, run);
      ChoiceOnly(s.kube, api.store, keys, n, eip.key);
    }

    /** When it succeeds, exactly the matching Eips that named the node are free, exactly their addresses are
        loose, and the node is labelled as not serving egress traffic. Then the finalizer goes; the run ends
        there. When no call fails it has done what `CleanedUp` says. */
    method Cleanup(n: Node, ghost c: Config, ghost s: State)
      returns (r: Result<Action>, ghost run: seq<Step>, ghost keys: seq<Key>, ghost todo: seq<Eip>)
      requires c.namespace == namespace && n.name in c.nodeNames
      requires s.kube == api.store && s.aws == ec2.cloud && s.phase.Running? && NodeOwner !in s.tasks
      requires Keyed(s.kube) && OwnAssociations(s.aws)
      modifies api, ec2
      ensures RunsTo(c, s, run, s.(kube := api.store, aws := ec2.cloud))
      ensures r.Ok? || (api.reliable && ec2.reliable) ==>
                && Kube.Lists(s.kube, c.NodeNs(), keys) && todo == Claimed(s.kube.eips, keys, NodeActor(n))
                && s.(kube := api.store, aws := ec2.cloud) == CleanedUp(s, NodeActor(n), todo)
      ensures r.Ok? ==> forall e :: e in todo <==> MustFree(s.kube, c.NodeNs(), NodeActor(n), e)
      ensures r.Ok? ==> FreedAll(s.kube, api.store.(nodes := s.kube.nodes), todo) && LoosedAll(s.aws, ec2.cloud, todo)
      ensures r.Ok? ==> Kube.LabelNode(s.kube, n.name, "false") == Ok(s.kube.(nodes := api.store.nodes))
      ensures api.reliable && ec2.reliable ==> (r.Ok? <==> AllAllocated(s.aws, todo) && n.name in s.kube.nodes)
      ensures r.Ok? ==> Kube.Lists(s.kube, if namespace.Some? then namespace.value else "default", keys)
      ensures r.Ok? ==> r == Ok(Await) && ClaimsFreed(s, api.store, ec2.cloud, c.NodeNs(), NodeActor(n))
      ensures r.Ok? ==>
                && api.store.pods == s.kube.pods && n.name in s.kube.nodes
                && api.store.nodes == s.kube.nodes[
                     n.name := s.kube.nodes[n.name].(labels := s.kube.nodes[n.name].labels[EGRESS_LABEL := "false"])]
      ensures api.reliable && ec2.reliable ==>
                (r.Ok? <==> ClaimsAllocated(s, c.NodeNs(), NodeActor(n)) && n.name in s.kube.nodes)
      ensures api.reliable && ec2.reliable && r.Err? ==>
                || ClaimLacks(s, c.NodeNs(), NodeActor(n), r.error)
                || (ClaimsAllocated(s, c.NodeNs(), NodeActor(n)) && n.name !in s.kube.nodes && r.error == NotFound)
    {
      hide RunTask, Start, RunsTo, Reaches, FreedAll, LoosedAll, MustFree, AllCurrent, DistinctKeys, OwnAssociations;
      hide AllAllocated, Loosened, Kube.Select, ClaimsFreed, ClaimsAllocated, ClaimLacks, Lacks;
      todo, keys := [], [];
      ghost var actor := NodeActor(n);
      run := NodeStarts(c, s, n, true);
      var listed := api.ListEips(if namespace.Some? then namespace.value else "default");
      if listed.Err? {
        run := Abort(c, s, run, s, NodeOwner, CleanupList(actor));
        return Err(listed.error), run, keys, todo;
      }
      keys := listed.value;
      var matched := Claimed(api.store.eips, listed.value, NodeActor(n));
      todo := matched;
      ClaimedAreCurrent(s.kube, c.NodeNs(), listed.value, actor);
      run := CleanupLists(c, s, run, s, actor, listed.value);
      var detached;
      detached, run := DetachEips(api, ec2, NodeActor(n), matched, c, s, s, run);
      CleanupMeans(s, api.store, ec2.cloud, c.NodeNs(), actor, todo);
      if detached.Err? {
        return Err(detached.error), run, keys, todo;
      }
      FreedKeepsOthers(s.kube, api.store, matched);
      ghost var m := s.(kube := api.store, aws := ec2.cloud);
      var labelled := api.Write(Kube.LabelNode(api.store, n.name, "false"));
      if labelled.Err? {
        run := Abort(c, s, run, m, NodeOwner, CleanupTail(actor));
        return Err(labelled.error), run, keys, todo;
      }
      run := CleanupTails(c, s, run, m, actor);
      SameLabels(s.kube, m.kube, api.store, todo, n.name);
      FreedByLabelling(s, m.kube, api.store, ec2.cloud, c.NodeNs(), actor, n.name);
      run := Finalizes(c, s, run, m.(kube := api.store), actor);
      return Ok(Await), run, keys, todo;
    }

    /** A node that is not ready lets its Eip go, in the status only. */
    method LetGo(n: Node, eip: Eip, ghost c: Config, ghost s: State, ghost run: seq<Step>)
      returns (r: Result<Action>, ghost run': seq<Step>)
      requires s.kube == api.store && Reaches(c, s, run, s, NodeOwner, NotReady(n, eip))
      requires eip.status.Some? && eip.key in s.kube.eips && s.kube.eips[eip.key] == eip
      modifies api
      ensures RunsTo(c, s, run', s.(kube := api.store))
      ensures api.reliable ==> r == Ok(Await)
      ensures r == Ok(Await) ==> s.(kube := api.store) == Detach(s, eip)
      ensures r == Ok(Await) ==> OnlyStatus(s.kube, api.store, eip.key, Kube.Cleared(eip.status.value))
      ensures OnlyEip(s.kube, api.store, eip.key)
      ensures r != Ok(Requeue)
    {
      hide RunTask, RunsTo, Reaches, OnlyStatus, OnlyEip, Kube.WriteStatus;
      DetachWrites(s, eip);
      SameStore(s.kube);
      StatusOnly(s.kube, Detach(s, eip).kube, eip.key, Kube.Cleared(eip.status.value));
      var written := api.Write(Kube.SetStatusDetached(api.store, eip));
      if written.Err? {
        run' := Abort(c, s, run, s, NodeOwner, NotReady(n, eip));
        return Err(written.error), run';
      }
      run' := NotReadyEnds(c, s, run, s, n, eip, api.store);
      return Ok(Await), run';
    }

    /** Claim the Eip, move its address to the node's interface and record the association. */
    method Take(n: Node, eip: Eip, instance: string, ghost c: Config, ghost s: State, ghost run: seq<Step>)
      returns (r: Result<Action>, ghost run': seq<Step>)
      requires s.kube == api.store && s.aws == ec2.cloud
      requires eip.status.Some? && eip.key in s.kube.eips && s.kube.eips[eip.key] == eip && eip.AllocationId().Some?
      requires UsableNode(n) && InstanceId(n.providerId.value) == Some(instance)
      requires Reaches(c, s, run, s, NodeOwner, Describe(NodeActor(n), eip, None))
      modifies api, ec2
      ensures RunsTo(c, s, run', s.(kube := api.store, aws := ec2.cloud))
      ensures r == Ok(Await) || (api.reliable && ec2.reliable) ==>
                s.(kube := api.store, aws := ec2.cloud) == NodePlaced(s, n, eip, NodeInterface(ec2, n))
      ensures r == Ok(Requeue) ==> api.store == s.kube && ec2.cloud == s.aws
      ensures api.reliable && ec2.reliable ==>
                r == if eip.AllocationId().value !in s.aws.addrs then Err(NotFound)
                     else if NodeInterface(ec2, n).None? then Err(NoInterfaceWithThatIp) else Ok(Await)
      ensures api.reliable && ec2.reliable ==> TakeReply(s, ec2.instances, n, eip.key, r)
      ensures OnlyEip(s.kube, api.store, eip.key) && OnlyMoves(s.aws, ec2.cloud, eip.AllocationId().value)
      ensures forall x :: Moved(s.aws, ec2.cloud, x) ==> IsAtNode(ec2.instances, n, ec2.cloud.addrs[x])
      ensures r == Ok(Await) ==> Brought(s, api.store, ec2.cloud, ec2.instances, n, eip.key)
      ensures r == Ok(Requeue) <==> api.answers == old(api.answers) + [Err(Conflict)]
    {
      hide RunTask, RunsTo, Reaches, OnlyEip, OnlyMoves, Moved, IsAtNode, Tells, NoInterface, Kube.WriteStatus,
           Aws.Associate, Eni.IsFirstOwner, Eni.FirstNics, InterfaceOf, Eni.HasEmptyList, Eni.Owns;
      ghost var actor := NodeActor(n);
      var alloc := eip.AllocationId().value;
      NothingMoves(s.aws);
      SameStore(s.kube);
      InterfaceKnown(ec2.instances, n);
      var described := ec2.DescribeAddress(alloc);
      if described.Err? {
        run' := Abort(c, s, run, s, NodeOwner, Describe(actor, eip, None));
        return Err(described.error), run';
      }
      var address := described.value;
      run' := Describes(c, s, run, s, actor, eip, None);
      var found := ec2.FindInterface(instance, n.ip.value);
      if found.Err? {
        run' := Abort(c, s, run', s, NodeOwner, NodeLocate(n, eip, address));
        return Err(found.error), run';
      }
      var eni := found.value;
      ClaimWrites(s.kube, eip, eni, n.ip.value, n.name, s.aws.next);
      ghost var answers := api.answers;
      AssociateMoves(s.aws, alloc, eni, n.ip.value);
      PlacedAtNode(ec2.instances, n, eni, s.aws.addrs[alloc]);
      PlacedAtNode(ec2.instances, n, eni, Aws.Associate(s.aws, alloc, eni, n.ip.value).addrs[alloc]);
      if address.At(eni, n.ip.value) {
        run' := Abort(c, s, run', s, NodeOwner, NodeLocate(n, eip, address));
        return Ok(Await), run';
      }
      run' := Locates(c, s, run', s, n, eip, address, eni);
      var claimed := api.Write(Kube.SetStatusShouldAttach(api.store, eip, eni, n.ip.value, n.name));
      assert api.answers[|answers|] == claimed;
      if claimed.Err? {
        run' := Abort(c, s, run', s, NodeOwner, Claim(actor, eip, address, eni));
        return if claimed.error == Conflict then Ok(Requeue) else Err(claimed.error), run';
      }
      run' := Claims(c, s, run', s, actor, eip, address, eni, api.store);
      ghost var m := s.(kube := api.store);
      var associated := ec2.AssociateEip(alloc, eni, n.ip.value);
      if associated.Err? {
        run' := Abort(c, s, run', m, NodeOwner, Associate(actor, eip, address, eni));
        return Err(associated.error), run';
      }
      var association := associated.value;
      run' := Associates(c, s, run', m, actor, eip, address, eni);
      m := m.(aws := ec2.cloud);
      var recorded := api.Write(Kube.SetStatusAssociationId(api.store, eip.key, association));
      if recorded.Err? {
        run' := Abort(c, s, run', m, NodeOwner, RecordAssociation(actor, eip, address, association));
        return Err(recorded.error), run';
      }
      run' := NodeRecords(c, s, run', m, n, eip, address, association, api.store);
      OnlyEipKeeps(s.kube, api.store, eip.key);
      NowTells(api.store.eips[eip.key], n, ec2.cloud.addrs[alloc], api.store.eips[eip.key].status.value);
      return Ok(Await), run';
    }
  }

  lemma FreedByLabelling(s: State, freed: Kube.Store, k': Kube.Store, a: Aws.Cloud, ns: string, actor: Actor,
                         name: string)
    requires Kube.LabelNode(freed, name, "false") == Ok(k')
    ensures ClaimsFreed(s, freed, a, ns, actor) ==> ClaimsFreed(s, k', a, ns, actor)
  {
  }

  /** Labelling the node does not touch the Eips, and freeing Eips does not touch the nodes. */
  lemma SameLabels(k: Kube.Store, freed: Kube.Store, k': Kube.Store, todo: seq<Eip>, name: string)
    requires FreedAll(k, freed, todo) && Kube.LabelNode(freed, name, "false") == Ok(k')
    ensures FreedAll(k, k'.(nodes := k.nodes), todo)
    ensures Kube.LabelNode(k, name, "false") == Ok(k.(nodes := k'.nodes))
  {
  }

  // ---- That it means this ----

  /** The interface looked up is the node's own, and none is found only if none is known. */
  lemma InterfaceKnown(instances: map<string, Eni.Description>, n: Node)
    requires UsableNode(n)
    ensures var r := InterfaceOf(instances, InstanceId(n.providerId.value).value, n.ip.value);
            && (r.None? <==> NoInterface(instances, n)) && (r.Some? ==> OwnInterface(instances, n, r.value))
  {
    var instance := InstanceId(n.providerId.value).value;
    InterfaceOwns(instances, instance, n.ip.value);
    if NoInterface(instances, n) && instance in instances {
      assert Eni.HasEmptyList(instances[instance]) ==> Eni.FirstNics(instances[instance]) == [];
    }
  }

  lemma PlacedAtNode(instances: map<string, Eni.Description>, n: Node, eni: string, a: Address)
    requires OwnInterface(instances, n, eni)
    ensures a.At(eni, n.ip.value) <==> IsAtNode(instances, n, a)
  {
  }

  lemma NoChange(k: Kube.Store, n: Node)
    ensures forall keys :: OnlyChoice(k, k, keys, n)
  {
  }

  lemma NoAddressReply(s: State, instances: map<string, Eni.Description>, n: Node, key: Key)
    requires UsableNode(n) && key in s.kube.eips && s.kube.eips[key].AllocationId().None?
    ensures TakeReply(s, instances, n, key, Err(MissingAllocationId))
  {
  }

  lemma ChoiceOnly(k: Kube.Store, k': Kube.Store, keys: seq<Key>, n: Node, key: Key)
    requires OnlyEip(k, k', key) && IsChoice(k.eips, keys, n, key)
    ensures OnlyChoice(k, k', keys, n)
  {
    hide IsChoice;
  }

  lemma NowTells(e: Eip, n: Node, a: Address, status: Status)
    requires e.status == Some(status) && status.resourceId == Some(n.name) && a.association.Some?
    requires status.eni == Some(a.association.value.eni) && status.privateIp == Some(a.association.value.ip)
    requires status.associationId == Some(a.association.value.id)
    ensures Tells(e, n, a)
  {
  }

  lemma SameStore(k: Kube.Store)
    ensures forall key :: OnlyEip(k, k, key)
  {
  }

  lemma OnlyEipKeeps(k: Kube.Store, k': Kube.Store, key: Key)
    requires OnlyEip(k, k', key)
    ensures k'.eips.Keys == k.eips.Keys && k'.pods == k.pods && k'.nodes == k.nodes
    ensures forall other :: other in k.eips && other != key ==> k'.eips[other] == k.eips[other]
  {
  }

  lemma DetachWrites(s: State, e: Eip)
    requires e.status.Some? && e.key in s.kube.eips && s.kube.eips[e.key] == e
    ensures Kube.SetStatusDetached(s.kube, e).Ok?
    ensures OnlyStatus(s.kube, Detach(s, e).kube, e.key, Kube.Cleared(e.status.value))
  {
    WriteDoes(s.kube, e.key, Kube.Cleared(e.status.value));
  }

  lemma StatusOnly(k: Kube.Store, k': Kube.Store, key: Key, status: Status)
    requires OnlyStatus(k, k', key, status)
    ensures OnlyEip(k, k', key) && k'.eips[key].status == Some(status)
  {
  }

  /** What a claim writes, and what recording an association writes after it. */
  lemma ClaimWrites(k: Kube.Store, e: Eip, eni: string, ip: string, name: string, association: nat)
    requires e.status.Some? && e.key in k.eips && k.eips[e.key] == e
    ensures OnlyEip(k, k, e.key)
    ensures var k1 := Kube.SetStatusShouldAttach(k, e, eni, ip, name);
            && k1.Ok? && OnlyEip(k, k1.value, e.key)
            && var k2 := Kube.SetStatusAssociationId(k1.value, e.key, association);
               && k2.Ok? && OnlyEip(k, k2.value, e.key)
               && k2.value.eips[e.key].status ==
                    Some(e.status.value.(eni := Some(eni), privateIp := Some(ip), resourceId := Some(name),
                                         associationId := Some(association)))
  {
    hide Kube.WriteStatus;
    var status := e.status.value.(eni := Some(eni), privateIp := Some(ip), resourceId := Some(name));
    var k1 := Kube.WriteStatus(k, e.key, status);
    WriteDoes(k, e.key, status);
    WriteDoes(k1, e.key, status.(associationId := Some(association)));
  }

  lemma NoChoice(eips: map<Key, Eip>, n: Node)
    ensures forall key :: !IsChoice(eips, [], n, key)
  {
  }

  /** The first free Eip of those that match is the node's choice. */
  lemma ChoiceIsFirst(k: Kube.Store, ns: string, keys: seq<Key>, n: Node)
    requires Keyed(k) && Kube.Lists(k, ns, keys)
    ensures MatchingNode(k.eips, keys, n.labels) == [] <==> NoneMatches(k.eips, ns, n)
    ensures var chosen := Kube.FirstFree(MatchingNode(k.eips, keys, n.labels), n.name);
            && (chosen.None? ==> forall key :: !IsChoice(k.eips, keys, n, key))
            && (chosen.Some? ==>
                  && chosen.value.status.Some? && chosen.value.key in k.eips && k.eips[chosen.value.key] == chosen.value
                  && forall key :: IsChoice(k.eips, keys, n, key) <==> key == chosen.value.key)
  {
    FirstIs(k.eips, keys, n);
    var matched := MatchingNode(k.eips, keys, n.labels);
    if matched != [] {
      assert matched[0] in matched;
    }
    forall key | key in k.eips && key.ns == ns && k.eips[key].MatchesNode(n.labels) ensures matched != [] {
      var i :| 0 <= i < |keys| && keys[i] == key;
      assert k.eips[key] in matched;
    }
    var chosen := Kube.FirstFree(matched, n.name);
    if chosen.Some? {
      var i :| FirstAt(k.eips, keys, n, i) && k.eips[keys[i]] == chosen.value;
      forall key ensures IsChoice(k.eips, keys, n, key) <==> key == chosen.value.key {
      }
    }
  }

  predicate FirstAt(eips: map<Key, Eip>, keys: seq<Key>, n: Node, i: int) {
    && 0 <= i < |keys| && keys[i] in eips && Takable(eips[keys[i]], n)
    && forall j :: 0 <= j < i && keys[j] in eips ==> !Takable(eips[keys[j]], n)
  }

  lemma {:induction false} FirstIs(eips: map<Key, Eip>, keys: seq<Key>, n: Node)
    requires forall i :: 0 <= i < |keys| ==> keys[i] in eips
    ensures var chosen := Kube.FirstFree(MatchingNode(eips, keys, n.labels), n.name);
            if chosen.Some? then exists i :: FirstAt(eips, keys, n, i) && eips[keys[i]] == chosen.value
            else forall i :: 0 <= i < |keys| ==> !Takable(eips[keys[i]], n)
  {
    if keys != [] {
      FirstIs(eips, keys[1..], n);
      MatchingNext(eips, keys, n.labels);
      var rest := Kube.FirstFree(MatchingNode(eips, keys[1..], n.labels), n.name);
      if Takable(eips[keys[0]], n) {
        assert FirstAt(eips, keys, n, 0);
      } else if rest.Some? {
        var i :| FirstAt(eips, keys[1..], n, i) && eips[keys[1..][i]] == rest.value;
        assert FirstAt(eips, keys, n, i + 1);
      } else {
        assert forall i :: 0 < i < |keys| ==> keys[i] == keys[1..][i - 1];
      }
    }
  }

  lemma MatchingNext(eips: map<Key, Eip>, keys: seq<Key>, labels: map<string, string>)
    requires keys != [] && forall i :: 0 <= i < |keys| ==> keys[i] in eips
    ensures MatchingNode(eips, keys, labels) ==
              if eips[keys[0]].MatchesNode(labels) then [eips[keys[0]]] + MatchingNode(eips, keys[1..], labels)
              else MatchingNode(eips, keys[1..], labels)
  {
  }
}
