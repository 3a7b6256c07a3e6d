/** The turns that convergence counts are runs of the transition system: what comes to rest is the operator itself. */
module TurnRuns {
  import opened Base
  import opened Protocol
  import opened Atomic
  import opened Detaching
  import opened Uninterrupted
  import opened ReconcileCalls
  import opened Settling
  import opened ApplyTurns
  import opened Watches
  import Turning
  import Runs
  import Rest
  import Safety
  import Kube
  import Aws

  lemma RunsOn(c: Config, s: State, run: seq<Step>, s': State)
    requires Runs.Reachable(c, s) && RunsTo(c, s, run, s')
    ensures Runs.Reachable(c, s')
  {
    hide CanRun, After;
    Safety.ReachableOn(c, s, run);
  }

  // ---- Eips ----

  /** From the recorded address on: the claim is checked. */
  lemma CheckRuns(c: Config, s: State, run: seq<Step>, m: State, e: Eip) returns (run': seq<Step>)
    requires Reaches(c, s, run, m, EipOwner(e.key), EipList(e))
    ensures RunsTo(c, s, run', Checked(m, e))
  {
    hide RunsTo, Reaches, Kube.SetStatusDetached, Aws.Disassociate, Kube.Resources;
    var listed := Kube.Resources(m.kube, e);
    run' := ListsResources(c, s, run, m, e);
    if !Settled(m, e) {
      if e.ResourceId().None? {
        run' := Refreshes(c, s, run', m, e, listed);
      } else {
        var m1 := m;
        if e.AssociationId().Some? {
          run' := Disassociates(c, s, run', m, e, listed);
          m1 := m.(aws := Aws.Disassociate(m.aws, e.AssociationId().value));
        }
        var r := Kube.SetStatusDetached(m1.kube, e);
        if r.Ok? {
          run' := Detaches(c, s, run', m1, e, listed, r.value);
          run' := Refreshes(c, s, run', m1.(kube := r.value), e, listed);
        } else {
          run' := Abort(c, s, run', m1, EipOwner(e.key), EipDetach(e, listed));
        }
      }
    }
  }

  lemma EipApplyRuns(c: Config, s: State, e: Eip, found: seq<nat>, publicIp: string) returns (run: seq<Step>)
    requires Start(c, s, StartEip(e)).Some? && !e.deleting && e.key in s.kube.eips
    requires Aws.Tagged(s.aws, e.uid, found) && |found| <= 1
    ensures RunsTo(c, s, run, EipApplied(NotedEip(s, e), e, found, publicIp))
  {
    hide RunsTo, Reaches, Start, Checked, Kube.WriteStatus, Aws.Allocate;
    var m := NotedEip(s, e);
    run := EipStarts(c, s, e);
    if found == [] {
      run := FindsNone(c, s, run, m, e);
      run := Allocates(c, s, run, m, e, publicIp);
      var k := Kube.SetStatusCreated(m.kube, e.key, s.aws.next, publicIp).value;
      run := Records(c, s, run, m.(aws := Aws.Allocate(m.aws, e.uid, e.key.ns, publicIp)), e, s.aws.next, publicIp, k);
    } else {
      run := FindsOne(c, s, run, m, e, found);
      var k := Kube.SetStatusCreated(m.kube, e.key, found[0], m.aws.addrs[found[0]].publicIp).value;
      run := Records(c, s, run, m, e, found[0], m.aws.addrs[found[0]].publicIp, k);
    }
    run := CheckRuns(c, s, run, Allocated(m, e, found, publicIp), e);
  }

  lemma EipCleanRuns(c: Config, s: State, e: Eip, found: seq<nat>) returns (run: seq<Step>)
    requires Start(c, s, StartEip(e)).Some? && e.deleting
    requires Aws.Tagged(s.aws, e.uid, found) && |found| <= 1 && OwnAssociations(s.aws)
    ensures RunsTo(c, s, run, EipCleaned(Condemned(s, e), e, found))
  {
    hide RunsTo, Reaches, Start, Finalized;
    var m := Condemned(s, e);
    run := EipStarts(c, s, e);
    run := Sweeps(c, s, run, m, e, found);
    if found != [] {
      assert found == [found[0]];
      var todo := Described(m.aws, found);
      assert todo == [(found[0], Aws.AssociationOf(m.aws.addrs[found[0]]))];
      var a := m.aws;
      if todo[0].1.Some? {
        run := DropsAssociation(c, s, run, m, e, todo);
        a := Aws.Disassociate(a, todo[0].1.value);
        assert [(found[0], None)] + todo[1..] == [(found[0], None)];
        todo := [(found[0], None)];
      }
      ReleasedIs(m.aws, found[0]);
      run := DropsAddress(c, s, run, m.(aws := a), e, todo, Released(m.aws, found));
      m := m.(aws := Released(m.aws, found));
      assert todo[1..] == [];
    }
    ReleasedNone(m.aws);
    run := SweptAll(c, s, run, m, e);
    run := EipFinalizes(c, s, run, m, e);
  }

  lemma ReleasedNone(a: Aws.Cloud)
    ensures Released(a, []) == a
  {
  }

  /** Disassociating and releasing the one address removes it, and that is all. */
  lemma ReleasedIs(a: Aws.Cloud, x: nat)
    requires x in a.addrs && OwnAssociations(a)
    ensures var id := Aws.AssociationOf(a.addrs[x]);
            Aws.Release(if id.Some? then Aws.Disassociate(a, id.value) else a, x) == Ok(Released(a, [x]))
  {
    var id := Aws.AssociationOf(a.addrs[x]);
    var a1 := if id.Some? then Aws.Disassociate(a, id.value) else a;
    assert (a1.addrs - {x}) == Released(a, [x]).addrs;
  }

  // ---- The loop of a cleanup ----

  lemma {:induction false} LoopRuns(c: Config, s: State, run: seq<Step>, m: State, actor: Actor, todo: seq<Eip>)
    returns (run': seq<Step>)
    requires Reaches(c, s, run, m, actor.Owner(), NextCleanup(actor, todo))
    requires Keyed(m.kube) && DistinctKeys(todo) && AllCurrent(m.kube, todo)
    ensures if AllAllocated(m.aws, todo) then Reaches(c, s, run', Loosened(m, todo), actor.Owner(), CleanupTail(actor))
            else RunsTo(c, s, run', Loosened(m, todo))
    decreases |todo|
  {
    hide RunsTo, Reaches, LoosenOne;
    run' := run;
    if todo != [] {
      if todo[0].AllocationId().None? || todo[0].AllocationId().value !in m.aws.addrs {
        run' := Abort(c, s, run, m, actor.Owner(), CleanupDescribe(actor, todo));
      } else {
        run' := OneRuns(c, s, run, m, actor, todo);
        LoosenLeaves(m, todo);
        run' := LoopRuns(c, s, run', LoosenOne(m, todo[0]), actor, todo[1..]);
      }
    }
  }

  lemma OneRuns(c: Config, s: State, run: seq<Step>, m: State, actor: Actor, todo: seq<Eip>) returns (run': seq<Step>)
    requires todo != [] && Reaches(c, s, run, m, actor.Owner(), CleanupDescribe(actor, todo))
    requires AllCurrent(m.kube, todo)
    requires todo[0].AllocationId().Some? && todo[0].AllocationId().value in m.aws.addrs
    ensures Reaches(c, s, run', LoosenOne(m, todo[0]), actor.Owner(), NextCleanup(actor, todo[1..]))
  {
    hide RunsTo, Reaches, NextCleanup, Kube.WriteStatus, Aws.Disassociate;
    var address := m.aws.addrs[todo[0].AllocationId().value];
    var k := Kube.SetStatusDetached(m.kube, todo[0]).value;
    run' := CleanupDescribes(c, s, run, m, actor, todo);
    var m1 := m;
    if address.association.Some? {
      run' := CleanupDisassociates(c, s, run', m, actor, todo, address.association.value.id);
      m1 := m.(aws := Aws.Disassociate(m.aws, address.association.value.id));
    }
    run' := CleanupDetaches(c, s, run', m1, actor, todo, k);
  }

  lemma LoosenLeaves(m: State, todo: seq<Eip>)
    requires todo != [] && Keyed(m.kube) && DistinctKeys(todo) && AllCurrent(m.kube, todo)
    requires todo[0].AllocationId().Some? && todo[0].AllocationId().value in m.aws.addrs
    ensures var m1 := LoosenOne(m, todo[0]);
            && Keyed(m1.kube) && DistinctKeys(todo[1..]) && AllCurrent(m1.kube, todo[1..])
            && (AllAllocated(m1.aws, todo[1..]) <==> AllAllocated(m.aws, todo))
  {
    hide OnlyStatus;
    DetachDoes(m, todo[0]);
    var m1 := LoosenOne(m, todo[0]);
    WrittenElsewhere(m, m1, todo[0]);
    assert forall i :: 0 < i < |todo| ==> todo[i] == todo[1..][i - 1];
  }

  lemma WrittenElsewhere(m: State, m1: State, e: Eip)
    requires e.status.Some? && Keyed(m.kube) && OnlyStatus(m.kube, m1.kube, e.key, Kube.Cleared(e.status.value))
    ensures Keyed(m1.kube) && m1.kube.nodes == m.kube.nodes && m1.kube.pods == m.kube.pods
    ensures forall key :: key in m.kube.eips && key != e.key ==>
              key in m1.kube.eips && m1.kube.eips[key] == m.kube.eips[key]
  {
  }

  lemma CleanupRuns(c: Config, s: State, run: seq<Step>, m: State, actor: Actor, keys: seq<Key>)
      returns (run': seq<Step>)
    requires Reaches(c, s, run, m, actor.Owner(), CleanupList(actor)) && Keyed(m.kube)
    requires Kube.Lists(m.kube, actor.Ns(c), keys)
    requires actor.NodeActor? ==> actor.node.name in m.kube.nodes
    ensures RunsTo(c, s, run', CleanedUp(m, actor, Claimed(m.kube.eips, keys, actor)))
  {
    hide RunsTo, Reaches, NextCleanup, Claimed, Tail, Gone;
    var todo := Claimed(m.kube.eips, keys, actor);
    ClaimedAreCurrent(m.kube, actor.Ns(c), keys, actor);
    run' := CleanupLists(c, s, run, m, actor, keys);
    run' := LoopRuns(c, s, run', m, actor, todo);
    if AllAllocated(m.aws, todo) {
      var m1 := Loosened(m, todo);
      LoosenedKeepsNodes(m, todo);
      run' := CleanupTails(c, s, run', m1, actor);
      run' := Finalizes(c, s, run', m1.(kube := Tail(m1.kube, actor)), actor);
    }
  }

  lemma {:induction false} LoosenedKeepsNodes(m: State, todo: seq<Eip>)
    requires Keyed(m.kube) && DistinctKeys(todo) && AllCurrent(m.kube, todo)
    ensures Loosened(m, todo).kube.nodes == m.kube.nodes
    decreases |todo|
  {
    hide LoosenOne, OnlyStatus;
    if todo != [] && todo[0].AllocationId().Some? && todo[0].AllocationId().value in m.aws.addrs {
      LoosenLeaves(m, todo);
      LoosenOneKeepsNodes(m, todo[0]);
      LoosenedKeepsNodes(LoosenOne(m, todo[0]), todo[1..]);
    }
  }

  lemma LoosenOneKeepsNodes(m: State, e: Eip)
    requires e.AllocationId().Some? && e.AllocationId().value in m.aws.addrs && e.status.Some?
    requires e.key in m.kube.eips && m.kube.eips[e.key] == e
    ensures LoosenOne(m, e).kube.nodes == m.kube.nodes
  {
  }

  // ---- Pods ----

  lemma PodTakeRuns(c: Config, s: State, run: seq<Step>, m: State, p: Pod, e: Eip, eni: string)
      returns (run': seq<Step>)
    requires p.ip.Some? && e.AllocationId().Some? && e.key in m.kube.eips && m.kube.eips[e.key] == e
    requires p.key in m.kube.pods
    requires Reaches(c, s, run, m, PodOwner(p.key), Describe(PodActor(p), e, Some(eni)))
    ensures RunsTo(c, s, run', PodTook(m, p, e, eni))
  {
    hide RunsTo, Reaches, Kube.WriteStatus, Kube.PutPod, Aws.Associate;
    if e.AllocationId().value !in m.aws.addrs {
      run' := Abort(c, s, run, m, PodOwner(p.key), Describe(PodActor(p), e, Some(eni)));
    } else {
      var address := m.aws.addrs[e.AllocationId().value];
      var k := Kube.SetStatusShouldAttach(m.kube, e, eni, p.ip.value, p.key.name).value;
      run' := Describes(c, s, run, m, PodActor(p), e, Some(eni));
      run' := Claims(c, s, run', m, PodActor(p), e, address, eni, k);
      var m1 := m.(kube := k);
      ClaimedStore(m, e, eni, p.ip.value, p.key.name);
      if !address.At(eni, p.ip.value) {
        run' := Associates(c, s, run', m1, PodActor(p), e, address, eni);
        m1 := m1.(aws := Aws.Associate(m.aws, e.AllocationId().value, eni, p.ip.value));
        var k1 := Kube.SetStatusAssociationId(k, e.key, m.aws.next).value;
        run' := PodRecords(c, s, run', m1, p, e, address, m.aws.next, k1);
        m1 := m1.(kube := k1);
      }
      var r := Kube.Annotate(m1.kube, p.key, Annotation(e.AllocationId().value, address.publicIp));
      if r.Ok? {
        run' := Annotates(c, s, run', m1, p, e.AllocationId().value, address.publicIp, r.value);
      } else {
        run' := Abort(c, s, run', m1, PodOwner(p.key), PodAnnotate(p, e.AllocationId().value, address.publicIp));
      }
    }
  }

  lemma ClaimedStore(m: State, e: Eip, eni: string, ip: string, resource: string)
    requires e.status.Some? && e.key in m.kube.eips && m.kube.eips[e.key] == e
    ensures e.key in Kube.SetStatusShouldAttach(m.kube, e, eni, ip, resource).value.eips
  {
  }

  /** What the pod's reconcile is given about interfaces fits the pod. */
  predicate Locatable(p: Pod, located: Result<string>) {
    located.Ok? && p.eni.Some? ==> p.eni.value == located.value
  }

  lemma PodApplyRuns(c: Config, s: State, p: Pod, keys: seq<Key>, located: Result<string>) returns (run: seq<Step>)
    requires Start(c, s, StartPod(p)).Some? && !p.deleting && p.key in s.kube.pods && Locatable(p, located)
    requires Keyed(PodCreated(s, p).kube) && Kube.Lists(PodCreated(s, p).kube, p.key.ns, keys)
    ensures RunsTo(c, s, run, PodApplied(NotedPod(s, p), p, keys, located))
  {
    hide RunsTo, Reaches, Start, PodTook, PodPlaced;
    var m := NotedPod(s, p);
    run := PodStarts(c, s, p);
    if p.autocreate && Kube.CreateForPod(m.kube, p.key).Err? {
      run := Abort(c, s, run, m, PodOwner(p.key), PodCreateEip(p));
    } else {
      if p.autocreate {
        run := Creates(c, s, run, m, p, Kube.CreateForPod(m.kube, p.key).value);
      }
      run := PodPlaceRuns(c, s, run, PodCreated(m, p), p, keys, located);
    }
  }

  lemma PodPlaceRuns(c: Config, s: State, run: seq<Step>, m: State, p: Pod, keys: seq<Key>, located: Result<string>)
    returns (run': seq<Step>)
    requires Reaches(c, s, run, m, PodOwner(p.key), PodLocate(p)) && p.key in m.kube.pods && Locatable(p, located)
    requires Keyed(m.kube) && Kube.Lists(m.kube, p.key.ns, keys)
    ensures RunsTo(c, s, run', if p.nodeName.None? || located.Err? then m else PodPlaced(m, p, keys, located.value))
  {
    hide RunsTo, Reaches, PodTook, MatchingPod;
    if p.nodeName.None? || located.Err? || p.ip.None? {
      run' := Abort(c, s, run, m, PodOwner(p.key), PodLocate(p));
    } else {
      run' := PodLocates(c, s, run, m, p, located.value);
      var matched := MatchingPod(m.kube.eips, keys, p.key.name);
      if |matched| != 1 || matched[0].AllocationId().None? {
        run' := Abort(c, s, run', m, PodOwner(p.key), PodList(p, located.value));
      } else {
        assert matched == [matched[0]];
        MatchedIsStored(m.kube, keys, p.key.name, matched[0]);
        run' := ReconcileCalls.PodLists(c, s, run', m, p, located.value, keys, matched[0]);
        run' := PodTakeRuns(c, s, run', m, p, matched[0], located.value);
      }
    }
  }

  // ---- Nodes ----

  lemma NodeTakeRuns(c: Config, s: State, n: Node, e: Eip, eni: Option<string>, run: seq<Step>)
      returns (run': seq<Step>)
    requires UsableNode(n) && e.AllocationId().Some? && e.key in s.kube.eips && s.kube.eips[e.key] == e
    requires Reaches(c, s, run, s, NodeOwner, Describe(NodeActor(n), e, None))
    ensures RunsTo(c, s, run', NodePlaced(s, n, e, eni))
  {
    hide RunsTo, Reaches, RunTask;
    if e.AllocationId().value !in s.aws.addrs {
      run' := Abort(c, s, run, s, NodeOwner, Describe(NodeActor(n), e, None));
    } else {
      var address := s.aws.addrs[e.AllocationId().value];
      run' := Describes(c, s, run, s, NodeActor(n), e, None);
      if eni.None? || address.At(eni.value, n.ip.value) {
        run' := Abort(c, s, run', s, NodeOwner, NodeLocate(n, e, address));
      } else {
        var k := Kube.SetStatusShouldAttach(s.kube, e, eni.value, n.ip.value, n.name).value;
        run' := Locates(c, s, run', s, n, e, address, eni.value);
        run' := Claims(c, s, run', s, NodeActor(n), e, address, eni.value, k);
        run' := Associates(c, s, run', s.(kube := k), NodeActor(n), e, address, eni.value);
        var m := s.(kube := k, aws := Aws.Associate(s.aws, e.AllocationId().value, eni.value, n.ip.value));
        run' := NodeRecords(c, s, run', m, n, e, address, s.aws.next,
                                           Kube.SetStatusAssociationId(k, e.key, s.aws.next).value);
      }
    }
  }

  lemma NodeApplyRuns(c: Config, s: State, n: Node, keys: seq<Key>, eni: Option<string>) returns (run: seq<Step>)
    requires s.phase.Running? && NodeOwner !in s.tasks && n.name in c.nodeNames && Keyed(s.kube)
    requires Kube.Lists(s.kube, c.NodeNs(), keys)
    ensures RunsTo(c, s, run, NodeApplied(s, n, keys, eni))
  {
    hide RunsTo, Reaches, RunTask, NodePlaced;
    run := NodeStarts(c, s, n, false);
    var chosen := Kube.FirstFree(MatchingNode(s.kube.eips, keys, n.labels), n.name);
    if !UsableNode(n) || chosen.None? || n.ready.None?
       || (n.ready.value == "True" && chosen.value.AllocationId().None?) {
      run := Abort(c, s, run, s, NodeOwner, NodeList(n));
    } else if n.ready.value != "True" {
      run := NodeLists(c, s, run, s, n, keys, NotReady(n, chosen.value));
      run := NotReadyEnds(c, s, run, s, n, chosen.value, Kube.SetStatusDetached(s.kube, chosen.value).value);
    } else {
      run := NodeLists(c, s, run, s, n, keys, Describe(NodeActor(n), chosen.value, None));
      run := NodeTakeRuns(c, s, n, chosen.value, eni, run);
    }
  }

  // ---- Turns depend on the stores alone ----

  /** The stores of `s`, with the bookkeeping of `book`. */
  function With(book: State, s: State): State {
    book.(kube := s.kube, aws := s.aws)
  }

  lemma SaneWith(w: World, book: State, s: State)
    requires Sane(w, s)
    ensures Sane(w, With(book, s))
  {
    hide World.Valid, Fits, FlagsSane, IdsSane;
    forall key | key in s.kube.eips ensures StatusSane(With(book, s), s.kube.eips[key]) {
      assert StatusSane(s, s.kube.eips[key]);
    }
  }

  lemma {:induction false} LoosenedWith(book: State, s: State, todo: seq<Eip>)
    ensures Loosened(With(book, s), todo) == With(book, Loosened(s, todo))
    decreases |todo|
  {
    hide Aws.Disassociate, Kube.SetStatusDetached;
    if todo != [] && todo[0].AllocationId().Some? && todo[0].AllocationId().value in s.aws.addrs {
      assert LoosenOne(With(book, s), todo[0]) == With(book, LoosenOne(s, todo[0]));
      LoosenedWith(book, LoosenOne(s, todo[0]), todo[1..]);
    }
  }

  lemma CleanedUpWith(book: State, s: State, actor: Actor, todo: seq<Eip>)
    ensures CleanedUp(With(book, s), actor, todo) == With(book, CleanedUp(s, actor, todo))
  {
    hide Loosened, Tail, Gone;
    LoosenedWith(book, s, todo);
  }

  lemma PodTookWith(book: State, s: State, p: Pod, e: Eip, eni: string)
    requires p.ip.Some? && e.AllocationId().Some? && e.key in s.kube.eips && s.kube.eips[e.key] == e
    ensures PodTook(With(book, s), p, e, eni) == With(book, PodTook(s, p, e, eni))
  {
    hide Kube.SetStatusShouldAttach, Kube.SetStatusAssociationId, Kube.Annotate, Aws.Associate;
  }

  lemma PodPlacedWith(book: State, s: State, p: Pod, keys: seq<Key>, eni: string)
    requires Keyed(s.kube) && forall i :: 0 <= i < |keys| ==> keys[i] in s.kube.eips
    ensures PodPlaced(With(book, s), p, keys, eni) == With(book, PodPlaced(s, p, keys, eni))
  {
    hide PodTook, MatchingPod;
    var matched := MatchingPod(s.kube.eips, keys, p.key.name);
    if |matched| == 1 && p.ip.Some? && matched[0].AllocationId().Some? {
      MatchedIsStored(s.kube, keys, p.key.name, matched[0]);
      PodTookWith(book, s, p, matched[0], eni);
    }
  }

  lemma PodAppliedWith(book: State, s: State, p: Pod, keys: seq<Key>, located: Result<string>)
    requires Keyed(PodCreated(s, p).kube) && forall i :: 0 <= i < |keys| ==> keys[i] in PodCreated(s, p).kube.eips
    ensures PodApplied(With(book, s), p, keys, located) == With(book, PodApplied(s, p, keys, located))
  {
    hide Kube.CreateForPod, PodPlaced;
    assert PodCreated(With(book, s), p) == With(book, PodCreated(s, p));
    if located.Ok? {
      PodPlacedWith(book, PodCreated(s, p), p, keys, located.value);
    }
  }

  lemma NodeAppliedWith(book: State, s: State, n: Node, keys: seq<Key>, eni: Option<string>)
    requires Keyed(s.kube) && forall i :: 0 <= i < |keys| ==> keys[i] in s.kube.eips
    ensures NodeApplied(With(book, s), n, keys, eni) == With(book, NodeApplied(s, n, keys, eni))
  {
    hide Kube.SetStatusDetached, Kube.SetStatusShouldAttach, Kube.SetStatusAssociationId, Aws.Associate,
         MatchingNode, Kube.FirstFree;
  }

  lemma AllocatedWith(book: State, s: State, e: Eip, found: seq<nat>, publicIp: string)
    requires Aws.Tagged(s.aws, e.uid, found) && |found| <= 1
    ensures Allocated(With(book, s), e, found, publicIp) == With(book, Allocated(s, e, found, publicIp))
  {
    hide Kube.SetStatusCreated, Aws.Allocate;
  }

  lemma CheckedWith(book: State, s: State, e: Eip)
    ensures Checked(With(book, s), e) == With(book, Checked(s, e))
  {
    hide Kube.SetStatusDetached, Aws.Disassociate, Kube.Resources;
  }

  lemma EipTurnedWith(book: State, s: State, e: Eip, found: seq<nat>, publicIp: string)
    requires Aws.Tagged(s.aws, e.uid, found)
    ensures EipTurned(With(book, s), e, found, publicIp) == With(book, EipTurned(s, e, found, publicIp))
  {
    hide Allocated, Checked, Kube.PutEip, Finalized, Released;
    if |found| <= 1 {
      AllocatedWith(book, s, e, found, publicIp);
      CheckedWith(book, Allocated(s, e, found, publicIp), e);
    }
  }

  lemma PodTurnedWith(w: World, book: State, s: State, p: Pod)
    requires Keyed(s.kube)
    ensures PodTurned(w, With(book, s), p) == With(book, PodTurned(w, s, p))
  {
    hide PodApplied, CleanedUp, Listing, Kube.PutPod, Kube.CreateForPod;
    CleanedUpWith(book, s, PodActor(p), PodTodo(w, s, p));
    CreatedKeys(s, p);
    var keys := Listing(PodCreated(s, p).kube.eips.Keys, w.order, p.key.ns);
    assert PodCreated(With(book, s), p).kube == PodCreated(s, p).kube;
    PodAppliedWith(book, s, p, keys, w.PodEni(s.kube, p));
  }

  lemma TurnedWith(w: World, book: State, s: State, t: Turn)
    requires Sane(w, s) && CanTurn(w, s, t)
    ensures Sane(w, With(book, s)) && CanTurn(w, With(book, s), t)
    ensures Turned(w, With(book, s), t) == With(book, Turned(w, s, t))
  {
    hide Sane, EipTurned, PodTurned, NodeApplied, CleanedUp, Listing, AllAllocated;
    SaneWith(w, book, s);
    SaneIds(w, s);
    match t {
      case EipTurn(key, found, publicIp) =>
        if key in s.kube.eips {
          EipTurnedWith(book, s, s.kube.eips[key], found, publicIp);
        }
      case PodTurn(key) =>
        if key in s.kube.pods {
          PodTurnedWith(w, book, s, s.kube.pods[key]);
        }
      case NodeTurn(name) =>
        if name in s.kube.nodes {
          NodeIs(w, s, name);
          CleanedUpWith(book, s, NodeActor(w.nodes[name]), NodeTodo(w, s, w.nodes[name]));
          NodeAppliedWith(book, s, w.nodes[name], NodeKeys(w, s), w.NodeEni(name));
        }
    }
  }

  // ---- Every turn is a run ----

  /** The quiet cluster `w` is one that the operator configured as `c` can meet. */
  ghost predicate Models(c: Config, w: World) {
    && c.NodeNs() == w.ns && (forall n :: n in w.nodes ==> n in c.nodeNames)
    && (forall p :: p in w.pods && p in w.podEnis && w.pods[p].eni.Some? ==> w.pods[p].eni.value == w.podEnis[p])
  }

  /** The operator watches the object. */
  predicate Watched(c: Config, t: Turn) {
    match t
    case EipTurn(key, _, _) => c.InScope(key.ns)
    case PodTurn(key) => c.InScope(key.ns)
    case NodeTurn(_) => true
  }

  ghost predicate Idles(c: Config, s: State) {
    Runs.Reachable(c, s) && s.phase.Running? && s.tasks == map[]
  }

  /** What the scheduler notes when it starts the turn. */
  ghost function Noted(s: State, t: Turn): State {
    match t
    case EipTurn(key, _, _) =>
      if key !in s.kube.eips || !s.kube.eips[key].finalizer then s
      else if s.kube.eips[key].deleting then Condemned(s, s.kube.eips[key])
      else NotedEip(s, s.kube.eips[key])
    case PodTurn(key) => if key !in s.kube.pods || !s.kube.pods[key].finalizer then s else NotedPod(s, s.kube.pods[key])
    case NodeTurn(_) => s
  }

  lemma NotedSane(w: World, s: State, t: Turn)
    requires Sane(w, s) && CanTurn(w, s, t)
    ensures With(Noted(s, t), s) == Noted(s, t)
    ensures Sane(w, Noted(s, t)) && CanTurn(w, Noted(s, t), t)
    ensures Turned(w, Noted(s, t), t) == With(Noted(s, t), Turned(w, s, t))
  {
    hide Sane, Turned;
    TurnedWith(w, Noted(s, t), s, t);
  }

  lemma OneStepRuns(c: Config, s: State, step: Step) returns (run: seq<Step>)
    requires Next(c, s, step).Some?
    ensures RunsTo(c, s, run, Next(c, s, step).value)
  {
    hide Next;
    OneMore(c, s, [], s, step);
    run := [] + [step];
  }

  lemma EipTurnRuns(c: Config, w: World, s: State, t: Turn) returns (run: seq<Step>)
    requires Idles(c, s) && Sane(w, s) && CanTurn(w, s, t) && Watched(c, t) && t.EipTurn? && Sane(w, Noted(s, t))
    ensures RunsTo(c, s, run, Turned(w, Noted(s, t), t))
  {
    hide RunsTo, Sane, EipApplied, EipCleaned, Kube.PutEip, Runs.Reachable;
    NothingRuns(c, s);
    run := [];
    if t.key in s.kube.eips {
      var e := s.kube.eips[t.key];
      CurrentKey(w, s, t.key);
      SaneIds(w, s);
      FoundIsRecorded(w, s, e, t.found);
      if !e.finalizer {
        FinalizerMissing(c, s, t.key);
        run := OneStepRuns(c, s, EipFinalizer(t.key));
      } else {
        EipCanStart(c, s, t.key);
        if e.deleting {
          run := EipCleanRuns(c, s, e, t.found);
        } else {
          run := EipApplyRuns(c, s, e, t.found, t.publicIp);
        }
      }
    }
  }

  lemma NothingRuns(c: Config, s: State)
    ensures RunsTo(c, s, [], s)
  {
  }

  /** An object without a finalizer is not being deleted, and gets one. */
  lemma FinalizerMissing(c: Config, s: State, key: Key)
    requires Idles(c, s)
    ensures key in s.kube.eips && !s.kube.eips[key].finalizer ==>
              Next(c, s, EipFinalizer(key)) == Some(s.(kube := Kube.PutEip(s.kube,
                  s.kube.eips[key].(finalizer := true))))
    ensures key in s.kube.pods && !s.kube.pods[key].finalizer ==>
              Next(c, s, PodFinalizer(key)) == Some(s.(kube := Kube.PutPod(s.kube,
                  s.kube.pods[key].(finalizer := true))))
  {
    hide Runs.Reachable, Kube.PutEip, Kube.PutPod;
    Rest.ReachableFlags(c, s);
  }

  lemma PodTurnRuns(c: Config, w: World, s: State, t: Turn) returns (run: seq<Step>)
    requires Idles(c, s) && Sane(w, s) && Models(c, w) && Watched(c, t) && t.PodTurn? && Sane(w, Noted(s, t))
    ensures RunsTo(c, s, run, Turned(w, Noted(s, t), t))
  {
    hide RunsTo, Reaches, Sane, PodApplied, CleanedUp, Kube.PutPod, Runs.Reachable, Start, Listing;
    NothingRuns(c, s);
    run := [];
    if t.key in s.kube.pods {
      var p := s.kube.pods[t.key];
      PodIs(w, s, t.key);
      SaneIds(w, s);
      if !p.finalizer {
        FinalizerMissing(c, s, t.key);
        run := OneStepRuns(c, s, PodFinalizer(t.key));
      } else {
        PodCanStart(c, s, t.key);
        if p.deleting {
          ApplyTurns.PodLists(w, s, t.key.ns);
          run := PodStarts(c, s, p);
          run := CleanupRuns(c, s, run, NotedPod(s, p), PodActor(p), Listing(s.kube.eips.Keys, w.order, t.key.ns));
        } else {
          CreatedKeys(s, p);
          CreatedLists(w, s, p);
          run := PodApplyRuns(c, s, p, Listing(PodCreated(s, p).kube.eips.Keys, w.order, t.key.ns),
                              w.PodEni(s.kube, p));
        }
      }
    }
  }

  lemma CreatedLists(w: World, s: State, p: Pod)
    requires Sane(w, s) && p.key in s.kube.pods
    ensures Kube.Lists(PodCreated(s, p).kube, p.key.ns, Listing(PodCreated(s, p).kube.eips.Keys, w.order, p.key.ns))
  {
    PodInOrder(w, s, p.key);
    ListingLists(PodCreated(s, p).kube, w.order, p.key.ns);
  }

  lemma NodeTurnRuns(c: Config, w: World, s: State, t: Turn) returns (run: seq<Step>)
    requires Idles(c, s) && Sane(w, s) && Models(c, w) && t.NodeTurn?
    ensures RunsTo(c, s, run, Turned(w, s, t))
  {
    hide RunsTo, Reaches, Sane, NodeApplied, CleanedUp, Runs.Reachable, Start, Listing, Next;
    NothingRuns(c, s);
    run := [];
    if t.name in s.kube.nodes {
      NodeIs(w, s, t.name);
      var n := w.nodes[t.name];
      ApplyTurns.PodLists(w, s, w.ns);
      if t.name in w.leaving {
        run := NodeStarts(c, s, n, true);
        run := CleanupRuns(c, s, run, s, NodeActor(n), NodeKeys(w, s));
        if AllAllocated(s.aws, NodeTodo(w, s, n)) {
          var s1 := CleanedUp(s, NodeActor(n), NodeTodo(w, s, n));
          NodesLeave(c, w, s, n);
          OneMore(c, s, run, s1, NodesChange(s1.kube.nodes - {t.name}));
          run := run + [NodesChange(s1.kube.nodes - {t.name})];
        }
      } else {
        run := NodeApplyRuns(c, s, n, NodeKeys(w, s), w.NodeEni(t.name));
      }
    }
  }

  /** A node that has been cleaned up can go. */
  lemma NodesLeave(c: Config, w: World, s: State, n: Node)
    requires Sane(w, s) && Models(c, w) && n.name in s.kube.nodes && n.name in w.leaving && w.nodes[n.name] == n
    ensures var s1 := CleanedUp(s, NodeActor(n), NodeTodo(w, s, n));
            Next(c, s1, NodesChange(s1.kube.nodes - {n.name})) ==
                Some(s1.(kube := s1.kube.(nodes := s1.kube.nodes - {n.name})))
  {
    hide Sane, Loosened, NodeTodo;
    NodeIs(w, s, n.name);
    CurrentTodo(w, s, n);
    LoosenedKeepsNodes(s, NodeTodo(w, s, n));
    forall name | name in s.kube.nodes ensures name in c.nodeNames {
      NodeIs(w, s, name);
    }
  }

  lemma CurrentTodo(w: World, s: State, n: Node)
    requires Sane(w, s)
    ensures Keyed(s.kube) && DistinctKeys(NodeTodo(w, s, n)) && AllCurrent(s.kube, NodeTodo(w, s, n))
  {
    hide Sane;
    ApplyTurns.PodLists(w, s, w.ns);
    ClaimedAreCurrent(s.kube, w.ns, NodeKeys(w, s), NodeActor(n));
  }

  /** From a reachable state in which nothing is going on, every turn of an object that the operator watches is
      a run of the transition system: it ends in the state that the turn gives, but for what the scheduler has
      noted. */
  lemma TurnIsRun(c: Config, w: World, s: State, t: Turn) returns (run: seq<Step>)
    requires Idles(c, s) && Sane(w, s) && CanTurn(w, s, t) && Models(c, w) && Watched(c, t)
    ensures RunsTo(c, s, run, With(Noted(s, t), Turned(w, s, t))) && Idles(c, With(Noted(s, t), Turned(w, s, t)))
  {
    hide RunsTo, Sane, Turned, Runs.Reachable;
    NotedSane(w, s, t);
    match t {
      case EipTurn(_, _, _) => run := EipTurnRuns(c, w, s, t);
      case PodTurn(_) => run := PodTurnRuns(c, w, s, t);
      case NodeTurn(_) => run := NodeTurnRuns(c, w, s, t);
    }
    RunsOn(c, s, run, With(Noted(s, t), Turned(w, s, t)));
  }

  /** So in every run of turns, each state is one that the operator reaches: the convergence of such runs is
      its own. */
  lemma {:induction false} StatesAreReached(c: Config, w: World, run: nat -> State, turns: nat -> Turn, i: nat)
    returns (s: State)
    requires Rest.IsRun(w, run, turns) && Models(c, w) && Idles(c, run(0)) && forall j: nat :: Watched(c, turns(j))
    ensures Idles(c, s) && s == With(s, run(i))
  {
    hide Sane, CanTurn, Turned, Idles;
    s := run(0);
    if i > 0 {
      var before := StatesAreReached(c, w, run, turns, i - 1);
      Rest.AlwaysSane(w, run, turns, i - 1);
      var t := turns(i - 1);
      TurnedWith(w, before, run(i - 1), t);
      var ran := TurnIsRun(c, w, before, t);
      s := With(Noted(before, t), Turned(w, before, t));
    }
  }

  lemma CalmWith(w: World, book: State, s: State)
    requires Rest.Calm(w, s)
    ensures Rest.Calm(w, With(book, s))
  {
    hide Rest.EipCalm, Rest.NodeCalm, Rest.PodCalm;
    forall key | key in s.kube.eips
      ensures Rest.EipCalm(With(book, s), s.kube.eips[key]) && Rest.PodCalm(w, With(book, s), key)
    {
      assert Rest.EipCalm(s, s.kube.eips[key]) && Rest.PodCalm(w, s, key);
      EachCalmWith(w, book, s, key);
    }
    forall n | n in s.kube.nodes ensures Rest.NodeCalm(w, With(book, s), n) {
      assert Rest.NodeCalm(w, s, n);
      NodeCalmWith(w, book, s, n);
    }
  }

  lemma EachCalmWith(w: World, book: State, s: State, key: Key)
    requires key in s.kube.eips
    ensures Rest.EipCalm(s, s.kube.eips[key]) ==> Rest.EipCalm(With(book, s), s.kube.eips[key])
    ensures Rest.PodCalm(w, s, key) ==> Rest.PodCalm(w, With(book, s), key)
  {
  }

  lemma NodeCalmWith(w: World, book: State, s: State, n: string)
    requires n in w.nodes
    ensures Rest.NodeCalm(w, s, n) ==> Rest.NodeCalm(w, With(book, s), n)
  {
  }

  /** The operator itself gets to a calm state, when its reconciles follow one another fairly. */
  lemma OperatorConverges(c: Config, w: World, run: nat -> State, turns: nat -> Turn) returns (s: State)
    requires Rest.IsRun(w, run, turns) && Rest.Fair(w, run, turns)
    requires Models(c, w) && Idles(c, run(0)) && forall j: nat :: Watched(c, turns(j))
    ensures Runs.Reachable(c, s) && Rest.Calm(w, s)
  {
    hide Sane, Turned, Rest.Calm, Rest.IsRun, Rest.Fair;
    var n := Rest.Converges(w, run, turns);
    s := StatesAreReached(c, w, run, turns, n);
    CalmWith(w, s, run(n));
  }
}
