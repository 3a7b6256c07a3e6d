/**
 The calls that only one kind of reconcile makes, as steps that extend an uninterrupted run.

 Each lemma is named for its call and says from which state and task to which it leads: what the service answered
 becomes the choice of the step, and what was written becomes the store of the next state. The calls that pods and
 nodes share are with the runs themselves. The scheduler's own bookkeeping is here as well: starting a reconcile
 notes how far the watch of the object has come, and starting the cleanup of an Eip condemns its uid, so that no
 apply of that Eip can start again.
 */
module ReconcileCalls {
  import opened Base
  import opened Protocol
  import opened Atomic
  import opened Uninterrupted
  import Kube
  import Aws

  /** The scheduler remembers how far the pod's watch has come. */
  function NotedPod(s: State, p: Pod): State {
    s.(seenPods := s.seenPods[p.key := p.version])
  }

  /** The scheduler remembers how far the Eip's watch has come. */
  function NotedEip(s: State, e: Eip): State {
    s.(seenEips := s.seenEips[e.key := e.version])
  }

  function Condemned(s: State, e: Eip): State {
    NotedEip(s, e).(condemned := s.condemned + {e.uid})
  }

  /** The copy's claim is by a resource that matches. */
  predicate Settled(s: State, e: Eip) {
    e.ResourceId().Some? && e.ResourceId().value in Kube.Resources(s.kube, e)
  }

  // ---- Nodes ----

  lemma NodeStarts(c: Config, s: State, n: Node, gone: bool) returns (run: seq<Step>)
    requires s.phase.Running? && NodeOwner !in s.tasks && n.name in c.nodeNames
    ensures Reaches(c, s, run, s, NodeOwner, if gone then CleanupList(NodeActor(n)) else NodeList(n))
  {
    run := Begin(c, s, StartNode(n, gone), s, NodeOwner, if gone then CleanupList(NodeActor(n)) else NodeList(n));
  }

  lemma NodeLists(c: Config, s: State, run: seq<Step>, m: State, n: Node, keys: seq<Key>, t: Task)
      returns (run': seq<Step>)
    requires Kube.Lists(m.kube, c.NodeNs(), keys) && UsableNode(n) && Reaches(c, s, run, m, NodeOwner, NodeList(n))
    requires NodeDecision(n, Kube.FirstFree(MatchingNode(m.kube.eips, keys, n.labels), n.name)) == Some(t)
    ensures Reaches(c, s, run', m, NodeOwner, t)
  {
    hide NodeDecision, MatchingNode;
    run' := Go(c, s, run, m, NodeOwner, NodeList(n), Order(keys), m, t);
  }

  lemma NotReadyEnds(c: Config, s: State, run: seq<Step>, m: State, n: Node, e: Eip, k: Kube.Store)
      returns (run': seq<Step>)
    requires Kube.SetStatusDetached(m.kube, e) == Ok(k) && Reaches(c, s, run, m, NodeOwner, NotReady(n, e))
    ensures RunsTo(c, s, run', m.(kube := k))
  {
    run' := Finish(c, s, run, m, NodeOwner, NotReady(n, e), Plain, m.(kube := k));
  }

  lemma NodeRecords(c: Config, s: State, run: seq<Step>, m: State, n: Node, e: Eip, address: Address, id: nat,
                    k: Kube.Store)
    returns (run': seq<Step>)
    requires e.AllocationId().Some? && Kube.SetStatusAssociationId(m.kube, e.key, id) == Ok(k)
    requires Reaches(c, s, run, m, NodeOwner, RecordAssociation(NodeActor(n), e, address, id))
    ensures RunsTo(c, s, run', m.(kube := k))
  {
    run' := Finish(c, s, run, m, NodeOwner, RecordAssociation(NodeActor(n), e, address, id), Plain, m.(kube := k));
  }

  // ---- Pods ----

  lemma PodStarts(c: Config, s: State, p: Pod) returns (run: seq<Step>)
    requires Start(c, s, StartPod(p)).Some?
    ensures Reaches(c, s, run, NotedPod(s, p), PodOwner(p.key),
                    if p.deleting then CleanupList(PodActor(p)) else if p.autocreate then PodCreateEip(p)
                       else PodLocate(p))
  {
    run := Begin(c, s, StartPod(p), NotedPod(s, p), PodOwner(p.key),
                 if p.deleting then CleanupList(PodActor(p)) else if p.autocreate then PodCreateEip(p)
                    else PodLocate(p));
  }

  lemma Creates(c: Config, s: State, run: seq<Step>, m: State, p: Pod, k: Kube.Store) returns (run': seq<Step>)
    requires Kube.CreateForPod(m.kube, p.key) == Ok(k) && Reaches(c, s, run, m, PodOwner(p.key), PodCreateEip(p))
    ensures Reaches(c, s, run', m.(kube := k), PodOwner(p.key), PodLocate(p))
  {
    run' := Go(c, s, run, m, PodOwner(p.key), PodCreateEip(p), Plain, m.(kube := k), PodLocate(p));
  }

  lemma PodLocates(c: Config, s: State, run: seq<Step>, m: State, p: Pod, eni: string) returns (run': seq<Step>)
    requires p.nodeName.Some? && p.ip.Some? && (p.eni.Some? ==> p.eni.value == eni)
    requires Reaches(c, s, run, m, PodOwner(p.key), PodLocate(p))
    ensures Reaches(c, s, run', m, PodOwner(p.key), PodList(p, eni))
  {
    run' := Go(c, s, run, m, PodOwner(p.key), PodLocate(p), Interface(Some(eni)), m, PodList(p, eni));
  }

  lemma PodLists(c: Config, s: State, run: seq<Step>, m: State, p: Pod, eni: string, keys: seq<Key>, e: Eip)
      returns (run': seq<Step>)
    requires Kube.Lists(m.kube, p.key.ns, keys) && MatchingPod(m.kube.eips, keys, p.key.name) == [e]
    requires e.AllocationId().Some? && p.ip.Some?
    requires Reaches(c, s, run, m, PodOwner(p.key), PodList(p, eni))
    ensures Reaches(c, s, run', m, PodOwner(p.key), Describe(PodActor(p), e, Some(eni)))
  {
    hide MatchingPod;
    run' := Go(c, s, run, m, PodOwner(p.key), PodList(p, eni), Order(keys), m, Describe(PodActor(p), e, Some(eni)));
  }

  lemma PodRecords(c: Config, s: State, run: seq<Step>, m: State, p: Pod, e: Eip, address: Address, id: nat,
                   k: Kube.Store)
    returns (run': seq<Step>)
    requires e.AllocationId().Some? && Kube.SetStatusAssociationId(m.kube, e.key, id) == Ok(k)
    requires Reaches(c, s, run, m, PodOwner(p.key), RecordAssociation(PodActor(p), e, address, id))
    ensures Reaches(c, s, run', m.(kube := k), PodOwner(p.key),
                    PodAnnotate(p, e.AllocationId().value, address.publicIp))
  {
    run' := Go(c, s, run, m, PodOwner(p.key), RecordAssociation(PodActor(p), e, address, id), Plain, m.(kube := k),
               PodAnnotate(p, e.AllocationId().value, address.publicIp));
  }

  lemma Annotates(c: Config, s: State, run: seq<Step>, m: State, p: Pod, alloc: nat, publicIp: string, k: Kube.Store)
    returns (run': seq<Step>)
    requires Kube.Annotate(m.kube, p.key, Annotation(alloc, publicIp)) == Ok(k)
    requires Reaches(c, s, run, m, PodOwner(p.key), PodAnnotate(p, alloc, publicIp))
    ensures RunsTo(c, s, run', m.(kube := k))
  {
    run' := Finish(c, s, run, m, PodOwner(p.key), PodAnnotate(p, alloc, publicIp), Plain, m.(kube := k));
  }

  // ---- Eips ----

  lemma EipStarts(c: Config, s: State, e: Eip) returns (run: seq<Step>)
    requires Start(c, s, StartEip(e)).Some?
    ensures e.deleting ==> Reaches(c, s, run, Condemned(s, e), EipOwner(e.key), EipSweep(e))
    ensures !e.deleting ==> Reaches(c, s, run, NotedEip(s, e), EipOwner(e.key), EipDescribe(e))
  {
    run := Begin(c, s, StartEip(e), if e.deleting then Condemned(s, e) else NotedEip(s, e), EipOwner(e.key),
                 if e.deleting then EipSweep(e) else EipDescribe(e));
  }

  lemma FindsNone(c: Config, s: State, run: seq<Step>, m: State, e: Eip) returns (run': seq<Step>)
    requires Aws.Tagged(m.aws, e.uid, []) && Reaches(c, s, run, m, EipOwner(e.key), EipDescribe(e))
    ensures Reaches(c, s, run', m, EipOwner(e.key), EipAllocate(e))
  {
    run' := Go(c, s, run, m, EipOwner(e.key), EipDescribe(e), Addresses([]), m, EipAllocate(e));
  }

  lemma FindsOne(c: Config, s: State, run: seq<Step>, m: State, e: Eip, found: seq<nat>) returns (run': seq<Step>)
    requires Aws.Tagged(m.aws, e.uid, found) && |found| == 1 && Reaches(c, s, run, m, EipOwner(e.key), EipDescribe(e))
    ensures Reaches(c, s, run', m, EipOwner(e.key), EipRecord(e, found[0], m.aws.addrs[found[0]].publicIp))
  {
    run' := Go(c, s, run, m, EipOwner(e.key), EipDescribe(e), Addresses(found), m,
               EipRecord(e, found[0], m.aws.addrs[found[0]].publicIp));
  }

  lemma Allocates(c: Config, s: State, run: seq<Step>, m: State, e: Eip, publicIp: string) returns (run': seq<Step>)
    requires Reaches(c, s, run, m, EipOwner(e.key), EipAllocate(e))
    ensures Reaches(c, s, run', m.(aws := Aws.Allocate(m.aws, e.uid, e.key.ns, publicIp)), EipOwner(e.key),
                    EipRecord(e, m.aws.next, publicIp))
  {
    run' := Go(c, s, run, m, EipOwner(e.key), EipAllocate(e), NewAddress(publicIp),
               m.(aws := Aws.Allocate(m.aws, e.uid, e.key.ns, publicIp)), EipRecord(e, m.aws.next, publicIp));
  }

  lemma Records(c: Config, s: State, run: seq<Step>, m: State, e: Eip, alloc: nat, publicIp: string, k: Kube.Store)
    returns (run': seq<Step>)
    requires Kube.SetStatusCreated(m.kube, e.key, alloc, publicIp) == Ok(k)
    requires Reaches(c, s, run, m, EipOwner(e.key), EipRecord(e, alloc, publicIp))
    ensures Reaches(c, s, run', m.(kube := k), EipOwner(e.key), EipList(e))
  {
    run' := Go(c, s, run, m, EipOwner(e.key), EipRecord(e, alloc, publicIp), Plain, m.(kube := k), EipList(e));
  }

  lemma ListsResources(c: Config, s: State, run: seq<Step>, m: State, e: Eip) returns (run': seq<Step>)
    requires Reaches(c, s, run, m, EipOwner(e.key), EipList(e))
    ensures Settled(m, e) ==> RunsTo(c, s, run', m)
    ensures !Settled(m, e) ==>
              Reaches(c, s, run', m, EipOwner(e.key),
                      if e.ResourceId().None? then EipRefresh(e, Kube.Resources(m.kube, e))
                      else if e.AssociationId().Some? then EipDisassociate(e, Kube.Resources(m.kube, e))
                      else EipDetach(e, Kube.Resources(m.kube, e)))
  {
    hide Kube.Resources;
    if Settled(m, e) {
      run' := Finish(c, s, run, m, EipOwner(e.key), EipList(e), Plain, m);
    } else {
      run' := Go(c, s, run, m, EipOwner(e.key), EipList(e), Plain, m,
                 if e.ResourceId().None? then EipRefresh(e, Kube.Resources(m.kube, e))
                 else if e.AssociationId().Some? then EipDisassociate(e, Kube.Resources(m.kube, e))
                 else EipDetach(e, Kube.Resources(m.kube, e)));
    }
  }

  lemma Disassociates(c: Config, s: State, run: seq<Step>, m: State, e: Eip, listed: set<string>)
      returns (run': seq<Step>)
    requires e.AssociationId().Some? && Reaches(c, s, run, m, EipOwner(e.key), EipDisassociate(e, listed))
    ensures Reaches(c, s, run', m.(aws := Aws.Disassociate(m.aws, e.AssociationId().value)), EipOwner(e.key),
                    EipDetach(e, listed))
  {
    run' := Go(c, s, run, m, EipOwner(e.key), EipDisassociate(e, listed), Plain,
               m.(aws := Aws.Disassociate(m.aws, e.AssociationId().value)), EipDetach(e, listed));
  }

  lemma Detaches(c: Config, s: State, run: seq<Step>, m: State, e: Eip, listed: set<string>, k: Kube.Store)
      returns (run': seq<Step>)
    requires Kube.SetStatusDetached(m.kube, e) == Ok(k) && Reaches(c, s, run, m, EipOwner(e.key), EipDetach(e, listed))
    ensures Reaches(c, s, run', m.(kube := k), EipOwner(e.key), EipRefresh(e, listed))
  {
    run' := Go(c, s, run, m, EipOwner(e.key), EipDetach(e, listed), Plain, m.(kube := k), EipRefresh(e, listed));
  }

  lemma Refreshes(c: Config, s: State, run: seq<Step>, m: State, e: Eip, listed: set<string>) returns (run': seq<Step>)
    requires Reaches(c, s, run, m, EipOwner(e.key), EipRefresh(e, listed))
    ensures RunsTo(c, s, run', m)
  {
    run' := Finish(c, s, run, m, EipOwner(e.key), EipRefresh(e, listed), Plain, m);
  }

  lemma Sweeps(c: Config, s: State, run: seq<Step>, m: State, e: Eip, found: seq<nat>) returns (run': seq<Step>)
    requires Aws.Tagged(m.aws, e.uid, found) && Reaches(c, s, run, m, EipOwner(e.key), EipSweep(e))
    ensures Reaches(c, s, run', m, EipOwner(e.key), EipRelease(e, Described(m.aws, found)))
  {
    run' := Go(c, s, run, m, EipOwner(e.key), EipSweep(e), Addresses(found), m, EipRelease(e, Described(m.aws, found)));
  }

  lemma DropsAssociation(c: Config, s: State, run: seq<Step>, m: State, e: Eip, todo: seq<(nat, Option<nat>)>)
      returns (run': seq<Step>)
    requires todo != [] && todo[0].1.Some? && Reaches(c, s, run, m, EipOwner(e.key), EipRelease(e, todo))
    ensures Reaches(c, s, run', m.(aws := Aws.Disassociate(m.aws, todo[0].1.value)), EipOwner(e.key),
                    EipRelease(e, [(todo[0].0, None)] + todo[1..]))
  {
    run' := Go(c, s, run, m, EipOwner(e.key), EipRelease(e, todo), Plain,
               m.(aws := Aws.Disassociate(m.aws, todo[0].1.value)), EipRelease(e, [(todo[0].0, None)] + todo[1..]));
  }

  lemma DropsAddress(c: Config, s: State, run: seq<Step>, m: State, e: Eip, todo: seq<(nat, Option<nat>)>, a: Aws.Cloud)
    returns (run': seq<Step>)
    requires todo != [] && todo[0].1.None? && Aws.Release(m.aws, todo[0].0) == Ok(a)
    requires Reaches(c, s, run, m, EipOwner(e.key), EipRelease(e, todo))
    ensures Reaches(c, s, run', m.(aws := a), EipOwner(e.key), EipRelease(e, todo[1..]))
  {
    run' := Go(c, s, run, m, EipOwner(e.key), EipRelease(e, todo), Plain, m.(aws := a), EipRelease(e, todo[1..]));
  }

  lemma SweptAll(c: Config, s: State, run: seq<Step>, m: State, e: Eip) returns (run': seq<Step>)
    requires Reaches(c, s, run, m, EipOwner(e.key), EipRelease(e, []))
    ensures Reaches(c, s, run', m, EipOwner(e.key), EipFinalize(e))
  {
    run' := Go(c, s, run, m, EipOwner(e.key), EipRelease(e, []), Plain, m, EipFinalize(e));
  }

  /** The finalizer goes. */
  lemma EipFinalizes(c: Config, s: State, run: seq<Step>, m: State, e: Eip) returns (run': seq<Step>)
    requires Reaches(c, s, run, m, EipOwner(e.key), EipFinalize(e))
    ensures RunsTo(c, s, run', m.(kube := Finalized(m.kube, e)))
  {
    run' := Finish(c, s, run, m, EipOwner(e.key), EipFinalize(e), Plain, m.(kube := Finalized(m.kube, e)));
  }
}
