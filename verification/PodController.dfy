/** The pod controller: `Apply` attaches the pod's Eip, `Cleanup` takes it away again. */
module PodController {
  import opened Base
  import opened Protocol
  import opened Atomic
  import opened Uninterrupted
  import opened ReconcileCalls
  import opened Services
  import opened Detaching
  import PodResults
  import Eni
  import Kube
  import Aws

  /** The interface the pod's address belongs on: the one the pod is annotated with, else the one of its
      node's instance that has its IP. Either way the node must be there and name its instance. */
  function Located(k: Kube.Store, ec2: Ec2, p: Pod): Result<string>
    requires p.nodeName.Some?
  {
    if p.ip.None? then Err(MissingPodIp)
    else if p.nodeName.value !in k.nodes then Err(NotFound)
    else
      var providerId := k.nodes[p.nodeName.value].providerId;
      if providerId.None? then Err(MissingProviderId)
      else if InstanceId(providerId.value).None? then Err(MalformedProviderId)
      else if p.eni.Some? then Ok(p.eni.value)
      else
        var found := InterfaceOf(ec2.instances, InstanceId(providerId.value).value, p.ip.value);
        if found.Some? then Ok(found.value) else Err(NoInterfaceWithThatIp)
  }

  function LocatedIfScheduled(k: Kube.Store, ec2: Ec2, p: Pod): Result<string> {
    if p.nodeName.Some? then Located(k, ec2, p) else Err(MissingNodeName)
  }

  /** Where the pod is depends on the nodes, not on the Eips. */
  lemma LocatedSees(k: Kube.Store, k': Kube.Store, ec2: Ec2, p: Pod)
    requires p.nodeName.Some? && k.nodes == k'.nodes
    ensures Located(k, ec2, p) == Located(k', ec2, p)
    ensures Located(k, ec2, p).Ok? ==> p.ip.Some? && (p.eni.Some? ==> Located(k, ec2, p) == Ok(p.eni.value))
  {
  }

  // ---- What a reconcile means, in terms of the pod and the stores ----

  /** The instance of the pod's node, as its provider id names it. */
  predicate OnInstance(k: Kube.Store, p: Pod, instance: string) {
    && p.nodeName.Some? && p.nodeName.value in k.nodes && k.nodes[p.nodeName.value].providerId.Some?
    && InstanceId(k.nodes[p.nodeName.value].providerId.value) == Some(instance)
  }

  /** The pod's address belongs on the interface: the pod is annotated with it, or else it is the first one of its
      node's instance that has the pod's IP. */
  ghost predicate OwnInterface(k: Kube.Store, instances: map<string, Eni.Description>, p: Pod, eni: string) {
    && p.ip.Some?
    && exists instance :: OnInstance(k, p, instance)
         && if p.eni.Some? then p.eni.value == eni
            else instance in instances && Eni.IsFirstOwner(Eni.FirstNics(instances[instance]), p.ip.value, eni)
  }

  /** No interface of the instance is known to have the IP. */
  predicate NoInterface(instances: map<string, Eni.Description>, instance: string, ip: string) {
    || instance !in instances || Eni.HasEmptyList(instances[instance])
    || forall nic :: nic in Eni.FirstNics(instances[instance]) ==> !Eni.Owns(nic, ip)
  }

  /** What is missing to find the interface, in the order in which it is asked for. */
  ghost predicate Missing(k: Kube.Store, instances: map<string, Eni.Description>, p: Pod, error: Error)
    requires p.nodeName.Some?
  {
    if p.ip.None? then error == MissingPodIp
    else if p.nodeName.value !in k.nodes then error == NotFound
    else
      var providerId := k.nodes[p.nodeName.value].providerId;
      if providerId.None? then error == MissingProviderId
      else if '/' !in providerId.value then error == MalformedProviderId
      else
        && error == NoInterfaceWithThatIp && p.eni.None?
        && exists instance :: OnInstance(k, p, instance) && NoInterface(instances, instance, p.ip.value)
  }

  /** The Eip selects the pod. */
  predicate Selects(k: Kube.Store, p: Pod, key: Key) {
    key in k.eips && key.ns == p.key.ns && k.eips[key].selector == PodSelector(p.key.name)
  }

  ghost predicate NoneSelects(k: Kube.Store, p: Pod) {
    forall key :: !Selects(k, p, key)
  }

  ghost predicate SeveralSelect(k: Kube.Store, p: Pod) {
    exists key, other :: Selects(k, p, key) && Selects(k, p, other) && key != other
  }

  ghost predicate OnlySelects(k: Kube.Store, p: Pod, key: Key) {
    Selects(k, p, key) && forall other :: Selects(k, p, other) ==> other == key
  }

  /** What is answered when the one Eip is found and no call fails. */
  predicate TakeReply(k: Kube.Store, a: Aws.Cloud, p: Pod, key: Key, r: Result<Action>) {
    key in k.eips &&
    var x := k.eips[key].AllocationId();
    && (x.None? ==> r == Err(MissingAllocationId))
    && (x.Some? && (x.value !in a.addrs || p.key !in k.pods) ==> r == Err(NotFound))
    && (x.Some? && x.value in a.addrs && p.key in k.pods ==> r == Ok(Await))
  }

  /** The pod has the Eip: the status tells of the claim and the place, the address is there, and the pod carries it
      in its annotation. If it had to be moved, the status also names its new association. Nothing else differs but
      what was in its place. */
  ghost predicate Taken(s: State, k: Kube.Store, a: Aws.Cloud, p: Pod, key: Key, eni: string) {
    && key in s.kube.eips && p.ip.Some?
    && var s', e := s.(kube := k, aws := a), s.kube.eips[key];
       && PodResults.Served(s', p, key, eni) && PodResults.OnlyTouches(s, s', p, e, eni)
       && e.AllocationId().Some? && k.eips[key].AllocationId() == e.AllocationId()
       && var x := e.AllocationId().value;
          && x in s.aws.addrs && x in a.addrs
          && (s.aws.addrs[x].At(eni, p.ip.value) ==> a == s.aws)
          && (!s.aws.addrs[x].At(eni, p.ip.value) ==> k.eips[key].AssociationId() == Aws.AssociationOf(a.addrs[x]))
  }

  predicate IsStored(k: Kube.Store, p: Pod) {
    p.key in k.pods && k.pods[p.key].key == p.key
  }

  /** The store after the Eip is made that the pod asks for. */
  function WithEip(k: Kube.Store, p: Pod): Kube.Store {
    if p.autocreate && p.key !in k.eips then Kube.CreateEip(k, p.key, PodSelector(p.key.name)) else k
  }

  /** There is an Eip of the name the pod asks for, but for something else. */
  predicate NameTaken(k: Kube.Store, p: Pod) {
    p.autocreate && p.key in k.eips && k.eips[p.key].selector != PodSelector(p.key.name)
  }

  class Controller {
    const api: ApiServer
    const ec2: Ec2

    constructor (api: ApiServer, ec2: Ec2)
      ensures this.api == api && this.ec2 == ec2
    {
      this.api := api;
      this.ec2 := ec2;
    }

    /** The reconcile is a run of the transition system from `s` to the stores it leaves, whatever calls
        fail. When it succeeds it has done what `PodApplied` says; when no call fails it also answers what
        `PodAnswer` says. */
    method Apply(p: Pod, ghost c: Config, ghost s: State)
      returns (r: Result<Action>, ghost run: seq<Step>, ghost keys: seq<Key>)
      requires Start(c, s, StartPod(p)).Some? && !p.deleting
      requires s.kube == api.store && s.aws == ec2.cloud && Keyed(s.kube)
      modifies api, ec2
      ensures RunsTo(c, s, run, NotedPod(s, p).(kube := api.store, aws := ec2.cloud))
      ensures keys == [] || Kube.Lists(PodCreated(s, p).kube, p.key.ns, keys)
      ensures r.Ok? || (api.reliable && ec2.reliable) ==>
                NotedPod(s, p).(kube := api.store, aws := ec2.cloud)
                  == PodApplied(NotedPod(s, p), p, keys, LocatedIfScheduled(s.kube, ec2, p))
      ensures r == Ok(Await) ==> Kube.Lists(PodCreated(s, p).kube, p.key.ns, keys)
      ensures api.reliable && ec2.reliable ==>
                r == PodAnswer(NotedPod(s, p), p, keys, LocatedIfScheduled(s.kube, ec2, p))
      ensures forall x :: Moved(s.aws, ec2.cloud, x) ==>
                && Some(ec2.cloud.addrs[x].association.value.ip) == p.ip
                && OwnInterface(s.kube, ec2.instances, p, ec2.cloud.addrs[x].association.value.eni)
      ensures NameTaken(s.kube, p) ==> r.Err? && api.store == s.kube && ec2.cloud == s.aws
      ensures p.nodeName.None? || NoneSelects(WithEip(s.kube, p), p) || SeveralSelect(WithEip(s.kube, p), p) ==>
                (api.store == s.kube || api.store == WithEip(s.kube, p)) && ec2.cloud == s.aws
      ensures r == Ok(Requeue) ==> p.nodeName.None? && api.store == WithEip(s.kube, p)
      ensures r == Ok(Await) ==> p.nodeName.Some? && !SeveralSelect(WithEip(s.kube, p), p)
      ensures r == Ok(Await) && IsStored(s.kube, p) ==>
                exists eni :: OwnInterface(s.kube, ec2.instances, p, eni) && forall key ::
                  Selects(WithEip(s.kube, p), p, key) ==>
                    Taken(NotedPod(s, p).(kube := WithEip(s.kube, p)), api.store, ec2.cloud, p, key, eni)
      ensures api.reliable && ec2.reliable ==>
                if NameTaken(s.kube, p) then r == Err(Conflict)
                else if p.nodeName.None? then r == Ok(Requeue)
                else if forall eni :: !OwnInterface(s.kube, ec2.instances, p, eni)
                  then r.Err? && Missing(s.kube, ec2.instances, p, r.error)
                else if NoneSelects(WithEip(s.kube, p), p) then r == Ok(Await)
                else if SeveralSelect(WithEip(s.kube, p), p) then r == Err(MultipleEipsTaggedForPod)
                else forall key :: Selects(WithEip(s.kube, p), p, key) ==>
                    TakeReply(WithEip(s.kube, p), s.aws, p, key, r)
    {
      hide RunTask, Start, RunsTo, Reaches, PodPlaced, PlacedAnswer, InstanceId, Located, Moved, OwnInterface,
           Missing, NoneSelects, SeveralSelect, TakeReply, Kube.CreateEip, Taken, Selects,
           IsStored, Kube.Lists, Keyed;
      NothingMoves(s.aws);
      keys := [];
      run := PodStarts(c, s, p);
      ghost var m := NotedPod(s, p);
      ghost var o := PodOwner(p.key);
      if p.autocreate {
        var created := api.Write(Kube.CreateForPod(api.store, p.key));
        if created.Err? {
          run := Abort(c, s, run, m, o, PodCreateEip(p));
          return Err(created.error), run, keys;
        }
        run := Creates(c, s, run, m, p, api.store);
        m := m.(kube := api.store);
      }
      if p.nodeName.None? {
        run := Abort(c, s, run, m, o, PodLocate(p));
        return Ok(Requeue), run, keys;
      }
      assert api.store == WithEip(s.kube, p);
      EipAsked(s.kube, p, ec2.instances);
      var located := Locate(p);
      LocatedSees(s.kube, api.store, ec2, p);
      if located.Err? {
        run := Abort(c, s, run, m, o, PodLocate(p));
        return Err(located.error), run, keys;
      }
      var eni := located.value;
      run := PodLocates(c, s, run, m, p, eni);
      r, run, keys := Attach(p, eni, c, s, m, run);
    }

    /** Find the pod's one Eip and take it. */
    method Attach(p: Pod, eni: string, ghost c: Config, ghost s: State, ghost m: State, ghost run: seq<Step>)
      returns (r: Result<Action>, ghost run': seq<Step>, ghost keys: seq<Key>)
      requires m.kube == api.store && m.aws == ec2.cloud && Keyed(m.kube) && p.ip.Some?
      requires Reaches(c, s, run, m, PodOwner(p.key), PodList(p, eni))
      modifies api, ec2
      ensures RunsTo(c, s, run', m.(kube := api.store, aws := ec2.cloud))
      ensures keys == [] || Kube.Lists(m.kube, p.key.ns, keys)
      ensures forall x :: Moved(m.aws, ec2.cloud, x) ==> ec2.cloud.addrs[x].At(eni, p.ip.value)
      ensures NoneSelects(m.kube, p) || SeveralSelect(m.kube, p) ==> api.store == m.kube && ec2.cloud == m.aws
      ensures r.Ok? ==> !SeveralSelect(m.kube, p)
      ensures r.Ok? && IsStored(m.kube, p) ==>
                forall key :: Selects(m.kube, p, key) ==> Taken(m, api.store, ec2.cloud, p, key, eni)
      ensures api.reliable && ec2.reliable ==>
                if NoneSelects(m.kube, p) then r == Ok(Await)
                else if SeveralSelect(m.kube, p) then r == Err(MultipleEipsTaggedForPod)
                else forall key :: Selects(m.kube, p, key) ==> TakeReply(m.kube, m.aws, p, key, r)
      ensures r.Ok? || (api.reliable && ec2.reliable) ==>
                Kube.Lists(m.kube, p.key.ns, keys)
                    && m.(kube := api.store, aws := ec2.cloud) == PodPlaced(m, p, keys, eni)
      ensures r.Ok? ==> r == Ok(Await)
      ensures api.reliable && ec2.reliable ==> r == PlacedAnswer(m, p, keys)
    {
      hide RunTask, RunsTo, Reaches, PodTook, Kube.Select, Moved, NoneSelects, SeveralSelect, TakeReply, MatchingPod,
           Taken;
      NothingMoves(m.aws);
      keys := [];
      run' := run;
      ghost var o := PodOwner(p.key);
      var listed := api.ListEips(p.key.ns);
      if listed.Err? {
        run' := Abort(c, s, run', m, o, PodList(p, eni));
        return Err(listed.error), run', keys;
      }
      keys := listed.value;
      var matched := MatchingPod(api.store.eips, listed.value, p.key.name);
      SelectingAre(m.kube, p, keys);
      if |matched| == 0 {
        run' := Abort(c, s, run', m, o, PodList(p, eni));
        return Ok(Await), run', keys;
      }
      if |matched| > 1 {
        run' := Abort(c, s, run', m, o, PodList(p, eni));
        return Err(MultipleEipsTaggedForPod), run', keys;
      }
      var eip := matched[0];
      Replies(m.kube, m.aws, p, eip.key);
      if eip.AllocationId().None? {
        run' := Abort(c, s, run', m, o, PodList(p, eni));
        return Err(MissingAllocationId), run', keys;
      }
      run' := PodLists(c, s, run', m, p, eni, keys, eip);
      r, run' := Take(p, eip, eni, c, s, m, run');
    }

    method Locate(p: Pod) returns (r: Result<string>)
      requires p.nodeName.Some?
      ensures r.Ok? || (api.reliable && ec2.reliable) ==> r == Located(api.store, ec2, p)
      ensures r.Ok? ==> OwnInterface(api.store, ec2.instances, p, r.value)
      ensures api.reliable && ec2.reliable && r.Err? ==>
                && Missing(api.store, ec2.instances, p, r.error)
                && forall eni :: !OwnInterface(api.store, ec2.instances, p, eni)
    {
      hide OwnInterface, Missing, InstanceId;
      LocatedIs(api.store, ec2, p);
      if p.ip.None? {
        return Err(MissingPodIp);
      }
      var node := api.GetNode(p.nodeName.value);
      if node.Err? {
        return Err(node.error);
      }
      if node.value.providerId.None? {
        return Err(MissingProviderId);
      }
      var instance := InstanceId(node.value.providerId.value);
      if instance.None? {
        return Err(MalformedProviderId);
      }
      if p.eni.Some? {
        return Ok(p.eni.value);
      }
      r := ec2.FindInterface(instance.value, p.ip.value);
    }

    /** Claim the Eip, bring its address to the pod unless it is there, and annotate the pod. */
    method Take(p: Pod, eip: Eip, eni: string, ghost c: Config, ghost s: State, ghost m: State, ghost run: seq<Step>)
      returns (r: Result<Action>, ghost run': seq<Step>)
      requires m.kube == api.store && m.aws == ec2.cloud && p.ip.Some?
      requires eip.status.Some? && eip.key in m.kube.eips && m.kube.eips[eip.key] == eip && eip.AllocationId().Some?
      requires Reaches(c, s, run, m, PodOwner(p.key), Describe(PodActor(p), eip, Some(eni)))
      modifies api, ec2
      ensures RunsTo(c, s, run', m.(kube := api.store, aws := ec2.cloud))
      ensures r.Ok? || (api.reliable && ec2.reliable) ==>
                m.(kube := api.store, aws := ec2.cloud) == PodTook(m, p, eip, eni)
      ensures r.Ok? ==> r == Ok(Await)
      ensures api.reliable && ec2.reliable ==>
                r == if eip.AllocationId().value !in m.aws.addrs || p.key !in m.kube.pods then Err(NotFound)
                    else Ok(Await)
      ensures forall x :: Moved(m.aws, ec2.cloud, x) ==> ec2.cloud.addrs[x].At(eni, p.ip.value)
      ensures r.Ok? && IsStored(m.kube, p) ==> Taken(m, api.store, ec2.cloud, p, eip.key, eni)
    {
      hide RunTask, RunsTo, Reaches, Kube.WriteStatus, Aws.Associate, Moved, Taken, PodTook, Kube.Annotate,
           Kube.SetStatusAssociationId;
      NothingMoves(m.aws);
      ghost var actor, o, now := PodActor(p), PodOwner(p.key), m;
      var alloc := eip.AllocationId().value;
      var described := ec2.DescribeAddress(alloc);
      if described.Err? {
        if alloc !in m.aws.addrs {
          NotTook(m, p, eip, eni);
        }
        run' := Abort(c, s, run, m, o, Describe(actor, eip, Some(eni)));
        return Err(described.error), run';
      }
      var address := described.value;
      run' := Describes(c, s, run, m, actor, eip, Some(eni));
      var claimed := api.Write(Kube.SetStatusShouldAttach(api.store, eip, eni, p.ip.value, p.key.name));
      if claimed.Err? {
        run' := Abort(c, s, run', m, o, Claim(actor, eip, address, eni));
        return Err(claimed.error), run';
      }
      run' := Claims(c, s, run', m, actor, eip, address, eni, api.store);
      ClaimKeeps(m.kube, eip, eni, p, api.store);
      now := now.(kube := api.store);
      if !address.At(eni, p.ip.value) {
        AssociateMoves(m.aws, alloc, eni, p.ip.value);
        var moved;
        moved, run' := Move(p, eip, address, eni, c, s, now, run');
        if moved.Err? {
          return Err(moved.error), run';
        }
        RecordKeeps(now.kube, eip.key, now.aws.next, api.store);
        now := now.(kube := api.store, aws := ec2.cloud);
      }
      TookIs(m, p, eip, eni, now);
      var annotated := api.Write(Kube.Annotate(api.store, p.key, Annotation(alloc, address.publicIp)));
      if annotated.Err? {
        run' := Abort(c, s, run', now, o, PodAnnotate(p, alloc, address.publicIp));
        return Err(annotated.error), run';
      }
      run' := Annotates(c, s, run', now, p, alloc, address.publicIp, api.store);
      if IsStored(m.kube, p) {
        TakenIs(m, p, eip, eni);
      }
      return Ok(Await), run';
    }

    /** Bring the address to the pod and record the association. */
    method Move(p: Pod, eip: Eip, address: Address, eni: string, ghost c: Config, ghost s: State, ghost m: State,
                ghost run: seq<Step>)
      returns (r: Result<()>, ghost run': seq<Step>)
      requires m.kube == api.store && m.aws == ec2.cloud && p.ip.Some? && eip.AllocationId().Some?
      requires Reaches(c, s, run, m, PodOwner(p.key), Associate(PodActor(p), eip, address, eni))
      modifies api, ec2
      ensures r.Ok? ==> eip.AllocationId().value in m.aws.addrs
                          && Kube.SetStatusAssociationId(m.kube, eip.key, m.aws.next) == Ok(api.store)
                          && ec2.cloud == Aws.Associate(m.aws, eip.AllocationId().value, eni, p.ip.value)
      ensures r.Ok? ==> Reaches(c, s, run', m.(kube := api.store, aws := ec2.cloud), PodOwner(p.key),
                                PodAnnotate(p, eip.AllocationId().value, address.publicIp))
      ensures r.Err? ==> RunsTo(c, s, run', m.(kube := api.store, aws := ec2.cloud))
      ensures ec2.cloud == m.aws || (eip.AllocationId().value in m.aws.addrs
                                     && ec2.cloud == Aws.Associate(m.aws, eip.AllocationId().value, eni, p.ip.value))
      ensures api.reliable && ec2.reliable && eip.AllocationId().value in m.aws.addrs && eip.key in m.kube.eips ==>
                r.Ok?
    {
      hide RunTask, RunsTo, Reaches, Kube.WriteStatus, Aws.Associate;
      ghost var actor, o, now := PodActor(p), PodOwner(p.key), m;
      var associated := ec2.AssociateEip(eip.AllocationId().value, eni, p.ip.value);
      if associated.Err? {
        run' := Abort(c, s, run, now, o, Associate(actor, eip, address, eni));
        return Err(associated.error), run';
      }
      var association := associated.value;
      run' := Associates(c, s, run, now, actor, eip, address, eni);
      now := now.(aws := ec2.cloud);
      var recorded := api.Write(Kube.SetStatusAssociationId(api.store, eip.key, association));
      if recorded.Err? {
        run' := Abort(c, s, run', now, o, RecordAssociation(actor, eip, address, association));
        return Err(recorded.error), run';
      }
      run' := PodRecords(c, s, run', now, p, eip, address, association, api.store);
      return Ok(()), run';
    }

    /** When it succeeds no Eip of the namespace names the pod: exactly those that did are free, exactly
        their addresses are loose, and the Eip made for the pod is being deleted. Then the finalizer goes, and
        the pod with it; the run ends there. When no call fails it has done what `CleanedUp` says. */
    method Cleanup(p: Pod, ghost c: Config, ghost s: State)
      returns (r: Result<Action>, ghost run: seq<Step>, ghost keys: seq<Key>, ghost todo: seq<Eip>)
      requires Start(c, s, StartPod(p)).Some? && p.deleting
      requires s.kube == api.store && s.aws == ec2.cloud && Keyed(s.kube) && OwnAssociations(s.aws)
      modifies api, ec2
      ensures RunsTo(c, s, run, NotedPod(s, p).(kube := if r.Ok? then Gone(api.store, PodActor(p)) else api.store,
                                                aws := ec2.cloud))
      ensures r.Ok? || (api.reliable && ec2.reliable) ==>
                && Kube.Lists(s.kube, p.key.ns, keys) && todo == Claimed(s.kube.eips, keys, PodActor(p))
                && NotedPod(s, p).(kube := if r.Ok? then Gone(api.store, PodActor(p)) else api.store, aws := ec2.cloud)
                     == CleanedUp(NotedPod(s, p), PodActor(p), todo)
      ensures r.Ok? ==> forall e :: e in todo <==> MustFree(s.kube, p.key.ns, PodActor(p), e)
      ensures r.Ok? ==> LoosedAll(s.aws, ec2.cloud, todo)
      ensures r.Ok? ==> FreedThenDeleted(s.kube, api.store, todo, p)
      ensures r.Ok? ==> forall key :: key in api.store.eips && key.ns == p.key.ns ==>
                api.store.eips[key].ResourceId() != Some(p.key.name)
      ensures api.reliable && ec2.reliable ==> (r.Ok? <==> AllAllocated(s.aws, todo))
      ensures r.Ok? ==>
                && r == Ok(Await)
                && exists freed: Kube.Store ::
                     && ClaimsFreed(s, freed, ec2.cloud, p.key.ns, PodActor(p))
                     && freed.pods == s.kube.pods && freed.nodes == s.kube.nodes
                     && api.store == if p.autocreate then Kube.DeleteEip(freed, p.key) else freed
      ensures api.reliable && ec2.reliable ==> (r.Ok? <==> ClaimsAllocated(s, p.key.ns, PodActor(p)))
      ensures api.reliable && ec2.reliable && r.Err? ==> ClaimLacks(s, p.key.ns, PodActor(p), r.error)
    {
      hide RunTask, Start, RunsTo, Reaches, FreedAll, LoosedAll, MustFree, AllCurrent, DistinctKeys, OwnAssociations;
      hide AllAllocated, Loosened, Kube.Select, Gone, ClaimsFreed, ClaimsAllocated, ClaimLacks, Lacks;
      todo, keys := [], [];
      ghost var actor := PodActor(p);
      run := PodStarts(c, s, p);
      var listed := api.ListEips(p.key.ns);
      if listed.Err? {
        run := Abort(c, s, run, NotedPod(s, p), PodOwner(p.key), CleanupList(actor));
        return Err(listed.error), run, keys, todo;
      }
      keys := listed.value;
      var matched := Claimed(api.store.eips, listed.value, PodActor(p));
      todo := matched;
      ClaimedAreCurrent(s.kube, p.key.ns, listed.value, actor);
      run := CleanupLists(c, s, run, NotedPod(s, p), actor, listed.value);
      var detached;
      detached, run := DetachEips(api, ec2, PodActor(p), matched, c, s, NotedPod(s, p), run);
      CleanupMeans(s, api.store, ec2.cloud, p.key.ns, actor, todo);
      if detached.Err? {
        return Err(detached.error), run, keys, todo;
      }
      ghost var m := NotedPod(s, p).(kube := api.store, aws := ec2.cloud);
      NobodyLeft(s.kube, api.store, todo, p);
      FreedKeepsOthers(s.kube, api.store, todo);
      if p.autocreate {
        var deleted := api.Write(Ok(Kube.DeleteEip(api.store, p.key)));
        if deleted.Err? {
          run := Abort(c, s, run, m, PodOwner(p.key), CleanupTail(actor));
          return Err(deleted.error), run, keys, todo;
        }
      }
      run := CleanupTails(c, s, run, m, actor);
      run := Finalizes(c, s, run, m.(kube := api.store), actor);
      return Ok(Await), run, keys, todo;
    }
  }

  /** The Eips of `todo` are freed, and then the Eip made for the pod is deleted. */
  ghost predicate FreedThenDeleted(k: Kube.Store, k': Kube.Store, todo: seq<Eip>, p: Pod) {
    exists freed: Kube.Store :: FreedAll(k, freed, todo) && k' == Tail(freed, PodActor(p))
  }

  lemma NobodyLeft(k: Kube.Store, freed: Kube.Store, todo: seq<Eip>, p: Pod)
    requires Keyed(k) && FreedAll(k, freed, todo)
    requires forall e :: e in todo <==> MustFree(k, p.key.ns, PodActor(p), e)
    ensures forall key :: key in Tail(freed, PodActor(p)).eips && key.ns == p.key.ns ==>
                            Tail(freed, PodActor(p)).eips[key].ResourceId() != Some(p.key.name)
    ensures FreedThenDeleted(k, Tail(freed, PodActor(p)), todo, p)
  {
    forall key | key in freed.eips && key.ns == p.key.ns ensures freed.eips[key].ResourceId() != Some(p.key.name) {
      NoneLeft(k, freed, p.key.ns, PodActor(p), todo, key);
    }
    assert forall key :: key in freed.eips ==> freed.eips[key].key == key;
  }

  lemma ClaimKeeps(k: Kube.Store, e: Eip, eni: string, p: Pod, k': Kube.Store)
    requires p.ip.Some? && Kube.SetStatusShouldAttach(k, e, eni, p.ip.value, p.key.name) == Ok(k')
    ensures e.key in k'.eips && k'.pods == k.pods
  {
  }

  lemma RecordKeeps(k: Kube.Store, key: Key, association: nat, k': Kube.Store)
    requires Kube.SetStatusAssociationId(k, key, association) == Ok(k')
    ensures k'.pods == k.pods
  {
  }

  // ---- That it means this ----

  /** What is located is the pod's own interface; nothing is located only if something is missing. */
  lemma LocatedIs(k: Kube.Store, ec2: Ec2, p: Pod)
    requires p.nodeName.Some?
    ensures var r := Located(k, ec2, p);
            if r.Ok? then OwnInterface(k, ec2.instances, p, r.value) else Missing(k, ec2.instances, p, r.error)
    ensures Located(k, ec2, p).Err? ==> forall eni :: !OwnInterface(k, ec2.instances, p, eni)
  {
    if p.ip.Some? && p.nodeName.value in k.nodes && k.nodes[p.nodeName.value].providerId.Some? {
      var instance := InstanceId(k.nodes[p.nodeName.value].providerId.value);
      if instance.Some? {
        assert OnInstance(k, p, instance.value);
        InterfaceOwns(ec2.instances, instance.value, p.ip.value);
      }
    }
  }

  /** The state before the annotation, and what the annotation makes of it. */
  lemma TookIs(m: State, p: Pod, e: Eip, eni: string, now: State)
    requires p.ip.Some? && e.status.Some? && e.AllocationId().Some? && e.AllocationId().value in m.aws.addrs
    requires e.key in m.kube.eips && m.kube.eips[e.key] == e
    requires var k := Kube.SetStatusShouldAttach(m.kube, e, eni, p.ip.value, p.key.name).value;
             if m.aws.addrs[e.AllocationId().value].At(eni, p.ip.value) then now == m.(kube := k)
             else
               && Kube.SetStatusAssociationId(k, e.key, m.aws.next) == Ok(now.kube)
               && now == m.(kube := now.kube, aws := Aws.Associate(m.aws, e.AllocationId().value, eni, p.ip.value))
    ensures var publicIp := m.aws.addrs[e.AllocationId().value].publicIp;
            var r := Kube.Annotate(now.kube, p.key, Annotation(e.AllocationId().value, publicIp));
            && PodTook(m, p, e, eni) == (if r.Ok? then now.(kube := r.value) else now)
            && (r.Ok? <==> p.key in m.kube.pods) && (r.Err? ==> r == Err(NotFound))
  {
    hide Kube.WriteStatus, Aws.Associate, Kube.PutPod;
    PlaceDoes(m, e, p.key.name, eni, p.ip.value);
  }

  lemma NotTook(m: State, p: Pod, e: Eip, eni: string)
    requires p.ip.Some? && e.AllocationId().Some? && e.AllocationId().value !in m.aws.addrs
    requires e.key in m.kube.eips && m.kube.eips[e.key] == e
    ensures PodTook(m, p, e, eni) == m
  {
  }

  /** Taking the Eip serves the pod, and records the new association if there is one. */
  lemma TakenIs(m: State, p: Pod, e: Eip, eni: string)
    requires p.ip.Some? && e.status.Some? && e.AllocationId().Some? && e.AllocationId().value in m.aws.addrs
    requires e.key in m.kube.eips && m.kube.eips[e.key] == e && IsStored(m.kube, p)
    ensures Taken(m, PodTook(m, p, e, eni).kube, PodTook(m, p, e, eni).aws, p, e.key, eni)
  {
    hide PodTook, PodResults.Served, PodResults.OnlyTouches;
    PodResults.TakingServes(m, p, e, eni);
    TookRecords(m, p, e, eni);
    var s' := PodTook(m, p, e, eni);
    assert s' == m.(kube := s'.kube, aws := s'.aws);
  }

  lemma TookRecords(m: State, p: Pod, e: Eip, eni: string)
    requires p.ip.Some? && e.status.Some? && e.AllocationId().Some? && e.AllocationId().value in m.aws.addrs
    requires e.key in m.kube.eips && m.kube.eips[e.key] == e
    ensures var s', x := PodTook(m, p, e, eni), e.AllocationId().value;
            && s' == m.(kube := s'.kube, aws := s'.aws) && e.key in s'.kube.eips
            && s'.kube.eips[e.key].AllocationId() == e.AllocationId() && x in s'.aws.addrs
            && (m.aws.addrs[x].At(eni, p.ip.value) ==> s'.aws == m.aws)
            && (!m.aws.addrs[x].At(eni, p.ip.value) ==>
                  s'.kube.eips[e.key].AssociationId() == Aws.AssociationOf(s'.aws.addrs[x]))
  {
    hide Kube.WriteStatus;
    PlaceDoes(m, e, p.key.name, eni, p.ip.value);
  }

  /** Making an Eip leaves the nodes alone. */
  lemma EipAsked(k: Kube.Store, p: Pod, instances: map<string, Eni.Description>)
    ensures WithEip(k, p).nodes == k.nodes && (Keyed(k) ==> Keyed(WithEip(k, p)))
    ensures IsStored(k, p) ==> IsStored(WithEip(k, p), p)
    ensures forall eni :: OwnInterface(WithEip(k, p), instances, p, eni) <==> OwnInterface(k, instances, p, eni)
    ensures p.nodeName.Some? ==>
              forall error :: Missing(WithEip(k, p), instances, p, error) <==> Missing(k, instances, p, error)
  {
    assert WithEip(k, p).nodes == k.nodes;
    assert forall instance :: OnInstance(WithEip(k, p), p, instance) <==> OnInstance(k, p, instance);
  }

  /** The filter finds none, one or several Eips just as none, one or several select the pod. */
  lemma SelectingAre(k: Kube.Store, p: Pod, keys: seq<Key>)
    requires Keyed(k) && Kube.Lists(k, p.key.ns, keys)
    ensures MatchingPod(k.eips, keys, p.key.name) == [] ==> forall key :: !Selects(k, p, key)
    ensures var matched := MatchingPod(k.eips, keys, p.key.name);
            && (matched == [] <==> NoneSelects(k, p)) && (|matched| > 1 <==> SeveralSelect(k, p))
            && (|matched| == 1 ==>
                  && matched[0].key in k.eips && k.eips[matched[0].key] == matched[0]
                  && OnlySelects(k, p, matched[0].key))
  {
    var matched := MatchingPod(k.eips, keys, p.key.name);
    FilterSelects(k, p, keys);
    forall key | Selects(k, p, key) ensures exists i :: 0 <= i < |matched| && matched[i] == k.eips[key] {
      assert k.eips[key] in matched;
    }
    if |matched| > 1 {
      assert Selects(k, p, matched[0].key) && Selects(k, p, matched[1].key) && matched[0].key != matched[1].key;
    } else if |matched| == 1 {
      assert Selects(k, p, matched[0].key);
    }
  }

  lemma FilterSelects(k: Kube.Store, p: Pod, keys: seq<Key>)
    requires Keyed(k) && Kube.Lists(k, p.key.ns, keys)
    ensures var matched := MatchingPod(k.eips, keys, p.key.name);
            && DistinctKeys(matched)
            && (forall i :: 0 <= i < |matched| ==>
                  Selects(k, p, matched[i].key) && k.eips[matched[i].key] == matched[i])
            && (forall key :: Selects(k, p, key) ==> k.eips[key] in matched)
  {
    var keep := (e: Eip) => e.MatchesPod(p.key.name);
    SelectDistinct(k.eips, keys, keep);
    PodResults.SameSelection(k.eips, keys, p.key.name, keep);
    var matched := MatchingPod(k.eips, keys, p.key.name);
    forall i | 0 <= i < |matched| ensures Selects(k, p, matched[i].key) && k.eips[matched[i].key] == matched[i] {
      assert matched[i] in matched;
    }
    forall key | Selects(k, p, key) ensures k.eips[key] in matched {
      var i :| 0 <= i < |keys| && keys[i] == key;
    }
  }

  lemma Replies(k: Kube.Store, a: Aws.Cloud, p: Pod, key: Key)
    requires key in k.eips
    ensures var x := k.eips[key].AllocationId();
            && (x.None? ==> TakeReply(k, a, p, key, Err(MissingAllocationId)))
            && (x.Some? ==>
                  TakeReply(k, a, p, key, if x.value !in a.addrs || p.key !in k.pods then Err(NotFound) else Ok(Await)))
  {
  }
}
