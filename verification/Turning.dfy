/** Each turn keeps the state sane, and changes nothing or brings it closer to rest. */
module Turning {
  import opened Base
  import opened Protocol
  import opened Atomic
  import opened PodResults
  import opened Detaching
  import opened Settling
  import opened Convergence
  import opened ApplyTurns
  import Kube
  import Aws

  /** Changes that leave the addresses and the statuses alone: objects may go, be marked or get a finalizer. */
  ghost predicate Marks(k: Kube.Store, k': Kube.Store) {
    && k.next <= k'.next
    && forall key :: key in k'.eips ==>
         && key in k.eips && (k.eips[key].deleting ==> k'.eips[key].deleting)
         && k'.eips[key] == k.eips[key].(version := k'.eips[key].version, deleting := k'.eips[key].deleting,
                                         finalizer := k'.eips[key].finalizer)
  }

  lemma MarksSane(w: World, s: State, s': State)
    requires Sane(w, s) && Marks(s.kube, s'.kube) && s'.aws == s.aws && Fits(w, s'.kube) && FlagsSane(s'.kube)
    ensures Sane(w, s')
  {
    hide World.Valid, IdsSane, Fits, FlagsSane;
    forall key | key in s'.kube.eips ensures StatusSane(s', s'.kube.eips[key]) {
      assert StatusSane(s, s.kube.eips[key]);
    }
  }

  // ---- Eips ----

  /** An Eip that is being deleted goes, with its addresses. */
  lemma CleanSane(w: World, s: State, e: Eip, found: seq<nat>)
    requires Sane(w, s) && e.key in s.kube.eips && s.kube.eips[e.key] == e && Aws.Tagged(s.aws, e.uid, found)
    ensures Sane(w, EipCleaned(s, e, found))
  {
    hide World.Valid;
    var s' := EipCleaned(s, e, found);
    forall key | key in s'.kube.eips ensures StatusSane(s', s'.kube.eips[key]) {
      assert StatusSane(s, s.kube.eips[key]);
    }
  }

  lemma CleanProgress(w: World, s: State, e: Eip, found: seq<nat>)
    requires Sane(w, s) && e.key in s.kube.eips && s.kube.eips[e.key] == e && e.deleting
    requires Aws.Tagged(s.aws, e.uid, found)
    ensures Progress(w, s, EipCleaned(s, e, found)) && EipCleaned(s, e, found) != s
  {
    hide Sane, Missing, BareCount, Unrecorded, ClaimCount, AstrayCount, UntidyCount, Released;
    var s' := EipCleaned(s, e, found);
    CleanSane(w, s, e, found);
    assert DeletingPods(s') == DeletingPods(s) && LeavingNodes(w, s') == LeavingNodes(w, s);
    assert DeletingEips(s') == DeletingEips(s) - {e.key};
    assert |DeletingEips(s')| == |DeletingEips(s)| - 1;
  }

  lemma EipFinalizerSane(w: World, s: State, e: Eip)
    requires Sane(w, s) && e.key in s.kube.eips && s.kube.eips[e.key] == e
    ensures Sane(w, s.(kube := Kube.PutEip(s.kube, e.(finalizer := true))))
  {
    hide World.Valid, IdsSane, StatusSane;
    var s' := s.(kube := Kube.PutEip(s.kube, e.(finalizer := true)));
    MarksSane(w, s, s');
  }

  lemma EipFinalizerProgress(w: World, s: State, e: Eip)
    requires Sane(w, s) && e.key in s.kube.eips && s.kube.eips[e.key] == e && !e.finalizer
    ensures var s' := s.(kube := Kube.PutEip(s.kube, e.(finalizer := true)));
            Progress(w, s, s') && s' != s
  {
    hide Sane, Unrecorded, ClaimCount, AstrayCount, UntidyCount;
    var s' := s.(kube := Kube.PutEip(s.kube, e.(finalizer := true)));
    EipFinalizerSane(w, s, e);
    assert DeletingPods(s') == DeletingPods(s) && LeavingNodes(w, s') == LeavingNodes(w, s)
           && DeletingEips(s') == DeletingEips(s);
    assert Missing(s') == Missing(s) && BarePods(s') == BarePods(s) && BareEips(s') == BareEips(s) - {e.key};
    assert |BareEips(s')| == |BareEips(s)| - 1;
  }

  lemma EipTurnProgress(w: World, s: State, t: Turn)
    requires Sane(w, s) && CanTurn(w, s, t) && t.EipTurn?
    ensures Progress(w, s, Turned(w, s, t))
  {
    hide Distance, EipApplied, EipCleaned, Progress, Sane, Kube.PutEip;
    Idle(w, s);
    if t.key in s.kube.eips {
      var e := s.kube.eips[t.key];
      CurrentKey(w, s, t.key);
      if !e.finalizer {
        EipFinalizerProgress(w, s, e);
      } else if e.deleting {
        CleanProgress(w, s, e, t.found);
      } else {
        ApplyProgress(w, s, e, t.found, t.publicIp);
      }
    }
  }

  // ---- The loop of a cleanup ----

  /** The stores differ in statuses only. */
  predicate SameObjects(k: Kube.Store, k': Kube.Store) {
    && k'.eips.Keys == k.eips.Keys && k'.pods == k.pods && k'.nodes == k.nodes
    && forall key :: key in k.eips ==>
        k'.eips[key] == k.eips[key].(version := k'.eips[key].version, status := k'.eips[key].status)
  }

  /** What a cleanup has to free is what the resource still claims: a claim that is not good any more. */
  ghost predicate AllBad(w: World, s: State, todo: seq<Eip>) {
    DistinctKeys(todo) && AllCurrent(s.kube, todo) && forall i :: 0 <= i < |todo| ==> todo[i].key in Bad(w, s)
  }

  lemma LoosenProgress(w: World, s: State, e: Eip)
    requires Sane(w, s) && e.key in Bad(w, s) && s.kube.eips[e.key] == e && e.AllocationId().Some?
    requires e.AllocationId().value in s.aws.addrs
    ensures var s' := LoosenOne(s, e);
            && Progress(w, s, s') && s' != s && OnlyStatus(s.kube, s'.kube, e.key, Kube.Cleared(e.status.value))
            && s'.aws.addrs.Keys == s.aws.addrs.Keys
  {
    hide Sane, Distance, OnlyStatus, IdsSane;
    SaneIds(w, s);
    DetachDoes(s, e);
    NoMoves(s.aws);
    var address := s.aws.addrs[e.AllocationId().value];
    if address.association.Some? {
      DisassociateMoves(s.aws, address.association.value.id);
    }
    WithdrawProgress(w, s, LoosenOne(s, e), e);
  }

  /** The claims still to be withdrawn are as they were. */
  lemma StillBad(w: World, s: State, s': State, todo: seq<Eip>)
    requires todo != [] && AllBad(w, s, todo) && todo[0].status.Some?
    requires OnlyStatus(s.kube, s'.kube, todo[0].key, Kube.Cleared(todo[0].status.value))
    ensures AllBad(w, s', todo[1..])
  {
    hide GoodClaim;
    forall i | 0 <= i < |todo[1..]| ensures todo[1..][i].key in Bad(w, s') {
      assert todo[1..][i] == todo[i + 1];
      SameGoodClaim(w, s, s', todo[i + 1], todo[i + 1]);
    }
  }

  lemma {:induction false} LoosenedProgress(w: World, s: State, todo: seq<Eip>)
    requires Sane(w, s) && AllBad(w, s, todo)
    ensures var s' := Loosened(s, todo);
            && Progress(w, s, s') && SameObjects(s.kube, s'.kube) && s'.aws.addrs.Keys == s.aws.addrs.Keys
    ensures Loosened(s, todo) == s <==>
              todo == [] || todo[0].AllocationId().None? || todo[0].AllocationId().value !in s.aws.addrs
    decreases |todo|
  {
    hide Sane, Distance, LoosenOne, Measure.Less, Bad;
    if todo == [] || todo[0].AllocationId().None? || todo[0].AllocationId().value !in s.aws.addrs {
      Idle(w, s);
    } else {
      var s1 := LoosenOne(s, todo[0]);
      LoosenProgress(w, s, todo[0]);
      StillBad(w, s, s1, todo);
      LoosenedProgress(w, s1, todo[1..]);
      Closer(w, s, s1, Loosened(s1, todo[1..]));
    }
  }

  /** Two steps closer are closer. */
  lemma Closer(w: World, s: State, s1: State, s2: State)
    requires Progress(w, s, s1) && Progress(w, s1, s2)
    ensures Progress(w, s, s2)
    ensures s1 != s ==> s2 != s
  {
    hide Sane, Distance;
  }

  // ---- Pods that are being deleted ----

  lemma PodTodoIsBad(w: World, s: State, p: Pod)
    requires Sane(w, s) && p.key in s.kube.pods && s.kube.pods[p.key] == p && p.deleting
    ensures AllBad(w, s, PodTodo(w, s, p))
  {
    hide IdsSane;
    PodLists(w, s, p.key.ns);
    PodIs(w, s, p.key);
    var keys := Listing(s.kube.eips.Keys, w.order, p.key.ns);
    ClaimedAreCurrent(s.kube, p.key.ns, keys, PodActor(p));
    var todo := PodTodo(w, s, p);
    forall i | 0 <= i < |todo| ensures todo[i].key in Bad(w, s) {
      assert todo[i] in todo && MustFree(s.kube, p.key.ns, PodActor(p), todo[i]);
      assert StatusSane(s, todo[i]);
    }
  }

  lemma DeleteMarks(k: Kube.Store, key: Key)
    requires Keyed(k) && FlagsSane(k)
    ensures var k' := Kube.DeleteEip(k, key);
            && Marks(k, k') && Keyed(k') && FlagsSane(k') && k'.pods == k.pods && k'.nodes == k.nodes
            && k'.eips.Keys <= k.eips.Keys
  {
  }

  /** The pod goes, and its own Eip with it or after it. */
  lemma PodGoesIs(k: Kube.Store, p: Pod)
    requires Keyed(k) && FlagsSane(k) && p.key in k.pods && k.pods[p.key] == p
    ensures var k' := Gone(Tail(k, PodActor(p)), PodActor(p));
            && Marks(k, k') && Keyed(k') && FlagsSane(k') && k'.pods == k.pods - {p.key} && k'.nodes == k.nodes
            && k'.eips.Keys <= k.eips.Keys
  {
    hide Kube.DeleteEip;
    DeleteMarks(k, p.key);
  }

  lemma PodGoesSane(w: World, s: State, p: Pod)
    requires Sane(w, s) && p.key in s.kube.pods && s.kube.pods[p.key] == p && p.deleting
    ensures Sane(w, s.(kube := Gone(Tail(s.kube, PodActor(p)), PodActor(p))))
  {
    hide World.Valid, IdsSane, StatusSane, Tail, Gone, Marks, FlagsSane;
    var s' := s.(kube := Gone(Tail(s.kube, PodActor(p)), PodActor(p)));
    PodGoesIs(s.kube, p);
    MarksSane(w, s, s');
  }

  lemma PodGoes(w: World, s: State, p: Pod)
    requires Sane(w, s) && p.key in s.kube.pods && s.kube.pods[p.key] == p && p.deleting
    ensures var s' := s.(kube := Gone(Tail(s.kube, PodActor(p)), PodActor(p)));
            Progress(w, s, s') && s' != s && p.key !in s'.kube.pods
  {
    hide Sane, Missing, BareCount, Unrecorded, ClaimCount, AstrayCount, UntidyCount;
    var s' := s.(kube := Gone(Tail(s.kube, PodActor(p)), PodActor(p)));
    PodGoesSane(w, s, p);
    SaneIds(w, s);
    assert LeavingNodes(w, s') == LeavingNodes(w, s) && DeletingPods(s') == DeletingPods(s) - {p.key};
    assert |DeletingPods(s')| == |DeletingPods(s)| - 1;
    assert DeletingEips(s') <= DeletingEips(s) + {p.key};
    Fewer(DeletingEips(s'), DeletingEips(s) + {p.key});
  }

  lemma PodCleanupProgress(w: World, s: State, p: Pod)
    requires Sane(w, s) && p.key in s.kube.pods && s.kube.pods[p.key] == p && p.deleting
    ensures Progress(w, s, CleanedUp(s, PodActor(p), PodTodo(w, s, p)))
    ensures AllAllocated(s.aws, PodTodo(w, s, p)) ==> p.key !in CleanedUp(s, PodActor(p), PodTodo(w, s, p)).kube.pods
  {
    hide Sane, Distance, Tail, Gone, AllAllocated, PodTodo;
    var todo := PodTodo(w, s, p);
    PodTodoIsBad(w, s, p);
    LoosenedProgress(w, s, todo);
    if AllAllocated(s.aws, todo) {
      PodGoes(w, Loosened(s, todo), p);
      Closer(w, s, Loosened(s, todo), CleanedUp(s, PodActor(p), todo));
    }
  }

  // ---- Nodes that are being deleted ----

  lemma NodeTodoIsBad(w: World, s: State, name: string)
    requires Sane(w, s) && name in s.kube.nodes && name in w.leaving && name in w.nodes
    ensures AllBad(w, s, NodeTodo(w, s, w.nodes[name]))
  {
    hide IdsSane;
    PodLists(w, s, w.ns);
    NodeIs(w, s, name);
    var n := w.nodes[name];
    ClaimedAreCurrent(s.kube, w.ns, NodeKeys(w, s), NodeActor(n));
    var todo := NodeTodo(w, s, n);
    forall i | 0 <= i < |todo| ensures todo[i].key in Bad(w, s) {
      assert todo[i] in todo && MustFree(s.kube, w.ns, NodeActor(n), todo[i]);
    }
  }

  /** The node goes. Its label no longer matters. */
  lemma NodeGoes(w: World, s: State, name: string)
    requires Sane(w, s) && name in s.kube.nodes && name in w.leaving
    ensures var s' := s.(kube := s.kube.(nodes := s.kube.nodes - {name}));
            Progress(w, s, s') && s' != s
  {
    hide World.Valid, IdsSane, StatusSane, Missing, BareCount, Unrecorded, ClaimCount, AstrayCount, UntidyCount;
    var s' := s.(kube := s.kube.(nodes := s.kube.nodes - {name}));
    MarksSane(w, s, s');
    assert DeletingPods(s') == DeletingPods(s) && DeletingEips(s') == DeletingEips(s);
    assert LeavingNodes(w, s') == LeavingNodes(w, s) - {name};
    assert |LeavingNodes(w, s')| == |LeavingNodes(w, s)| - 1;
  }

  lemma NodeLeftIs(w: World, s: State, n: Node)
    requires n.name in s.kube.nodes && SameObjects(s.kube, Loosened(s, NodeTodo(w, s, n)).kube)
    ensures var s1 := Loosened(s, NodeTodo(w, s, n));
            NodeLeft(w, s, n) == if AllAllocated(s.aws, NodeTodo(w, s, n))
                then s1.(kube := s1.kube.(nodes := s1.kube.nodes - {n.name})) else s1
  {
    hide Loosened, AllAllocated, NodeTodo;
    var s1 := Loosened(s, NodeTodo(w, s, n));
    assert Tail(s1.kube, NodeActor(n)).nodes - {n.name} == s1.kube.nodes - {n.name};
  }

  lemma NodeCleanupProgress(w: World, s: State, name: string)
    requires Sane(w, s) && name in s.kube.nodes && name in w.leaving && name in w.nodes
    ensures Progress(w, s, NodeLeft(w, s, w.nodes[name]))
    ensures AllAllocated(s.aws, NodeTodo(w, s, w.nodes[name])) ==> name !in NodeLeft(w, s, w.nodes[name]).kube.nodes
  {
    hide Sane, Distance, AllAllocated, NodeTodo, NodeLeft;
    var todo := NodeTodo(w, s, w.nodes[name]);
    NodeIs(w, s, name);
    NodeTodoIsBad(w, s, name);
    LoosenedProgress(w, s, todo);
    NodeLeftIs(w, s, w.nodes[name]);
    if AllAllocated(s.aws, todo) {
      NodeGoes(w, Loosened(s, todo), name);
      Closer(w, s, Loosened(s, todo), NodeLeft(w, s, w.nodes[name]));
    }
  }

  lemma NodeTurnProgress(w: World, s: State, t: Turn)
    requires Sane(w, s) && CanTurn(w, s, t) && t.NodeTurn?
    ensures Progress(w, s, Turned(w, s, t))
  {
    hide Distance, NodeApplied, NodeLeft, Progress, Sane;
    Idle(w, s);
    if t.name in s.kube.nodes {
      NodeIs(w, s, t.name);
      if t.name in w.leaving {
        NodeCleanupProgress(w, s, t.name);
      } else {
        NodeApplyProgress(w, s, t.name);
      }
    }
  }

  // ---- Pods ----

  lemma PodFinalizerSane(w: World, s: State, p: Pod)
    requires Sane(w, s) && p.key in s.kube.pods && s.kube.pods[p.key] == p
    ensures Sane(w, s.(kube := Kube.PutPod(s.kube, p.(finalizer := true))))
  {
    hide World.Valid, IdsSane, StatusSane;
    var s' := s.(kube := Kube.PutPod(s.kube, p.(finalizer := true)));
    MarksSane(w, s, s');
  }

  lemma PodFinalizerProgress(w: World, s: State, p: Pod)
    requires Sane(w, s) && p.key in s.kube.pods && s.kube.pods[p.key] == p && !p.finalizer
    ensures var s' := s.(kube := Kube.PutPod(s.kube, p.(finalizer := true)));
            Progress(w, s, s') && s' != s
  {
    hide Sane, Unrecorded, ClaimCount, AstrayCount, UntidyCount;
    var s' := s.(kube := Kube.PutPod(s.kube, p.(finalizer := true)));
    PodFinalizerSane(w, s, p);
    assert DeletingPods(s') == DeletingPods(s) && LeavingNodes(w, s') == LeavingNodes(w, s)
           && DeletingEips(s') == DeletingEips(s);
    assert Missing(s') == Missing(s) && BareEips(s') == BareEips(s) && BarePods(s') == BarePods(s) - {p.key};
    assert |BarePods(s')| == |BarePods(s)| - 1;
  }

  lemma PodTurnProgress(w: World, s: State, t: Turn)
    requires Sane(w, s) && CanTurn(w, s, t) && t.PodTurn?
    ensures Progress(w, s, Turned(w, s, t))
  {
    hide Distance, PodApplied, CleanedUp, PodTodo, Progress, Sane, Kube.PutPod;
    Idle(w, s);
    SaneIds(w, s);
    if t.key in s.kube.pods {
      PodIs(w, s, t.key);
      var p := s.kube.pods[t.key];
      CreatedKeys(s, p);
      if !p.finalizer {
        PodFinalizerProgress(w, s, p);
      } else if p.deleting {
        PodCleanupProgress(w, s, p);
      } else {
        PodApplyProgress(w, s, t.key);
      }
    }
  }

  /** Every turn keeps the state sane, and changes nothing or brings it closer to rest. */
  lemma TurnProgress(w: World, s: State, t: Turn)
    requires Sane(w, s) && CanTurn(w, s, t)
    ensures Sane(w, Turned(w, s, t))
    ensures Turned(w, s, t) == s || Distance(w, Turned(w, s, t)).Less(Distance(w, s))
  {
    hide Sane, Turned, Distance, CanTurn;
    match t {
      case EipTurn(_, _, _) => EipTurnProgress(w, s, t);
      case PodTurn(_) => PodTurnProgress(w, s, t);
      case NodeTurn(_) => NodeTurnProgress(w, s, t);
    }
  }
}
