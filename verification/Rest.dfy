/** A fair run of turns comes to rest, and the states of rest are exactly the calm ones. */
module Rest {
  import opened Base
  import opened Protocol
  import opened Atomic
  import opened PodResults
  import opened Settling
  import opened Convergence
  import opened Detaching
  import opened ApplyTurns
  import opened Turning
  import opened Calls
  import opened Invariants
  import Runs
  import Kube
  import Aws

  // ---- Every run comes to rest ----

  ghost predicate IsRun(w: World, run: nat -> State, turns: nat -> Turn) {
    && Sane(w, run(0))
    && forall i: nat :: Sane(w, run(i)) ==> CanTurn(w, run(i), turns(i)) && run(i + 1) == Turned(w, run(i), turns(i))
  }

  lemma {:induction false} AlwaysSane(w: World, run: nat -> State, turns: nat -> Turn, i: nat)
    requires IsRun(w, run, turns)
    ensures Sane(w, run(i))
  {
    hide Sane, CanTurn, Turned;
    if i > 0 {
      AlwaysSane(w, run, turns, i - 1);
      TurnProgress(w, run(i - 1), turns(i - 1));
    }
  }

  lemma Transitive(a: Measure, b: Measure, c: Measure)
    requires a.Less(b) && b.Less(c)
    ensures a.Less(c)
  {
  }

  lemma {:induction false} Nearer(w: World, run: nat -> State, turns: nat -> Turn, i: nat, j: nat)
    requires IsRun(w, run, turns) && i <= j
    ensures run(j) == run(i) || Distance(w, run(j)).Less(Distance(w, run(i)))
    decreases j
  {
    hide Sane, CanTurn, Turned, Distance, Measure.Less;
    if i < j {
      Nearer(w, run, turns, i, j - 1);
      AlwaysSane(w, run, turns, j - 1);
      TurnProgress(w, run(j - 1), turns(j - 1));
      if run(j) != run(j - 1) && run(j - 1) != run(i) {
        Transitive(Distance(w, run(j)), Distance(w, run(j - 1)), Distance(w, run(i)));
      }
    }
  }

  ghost predicate StillFrom(run: nat -> State, n: nat) {
    forall i: nat :: i >= n ==> run(i) == run(n)
  }

  /** Only finitely many turns of a run change anything. */
  lemma {:induction false} ComesToRest(w: World, run: nat -> State, turns: nat -> Turn, from: nat) returns (n: nat)
    requires IsRun(w, run, turns)
    ensures n >= from && StillFrom(run, n)
    decreases Distance(w, run(from)).leaving, Distance(w, run(from)).missing, Distance(w, run(from)).bare,
              Distance(w, run(from)).unrecorded, Distance(w, run(from)).claims, Distance(w,
                  run(from)).astray, Distance(w, run(from)).untidy
  {
    hide Sane, CanTurn, Turned, Distance, IsRun;
    n := from;
    if !StillFrom(run, from) {
      var j: nat :| j >= from && run(j) != run(from);
      Nearer(w, run, turns, from, j);
      n := ComesToRest(w, run, turns, j);
    }
  }

  // ---- Rest is calm ----

  /** Every object has a turn that changes nothing. */
  ghost predicate AtRest(w: World, s: State)
    requires Sane(w, s)
  {
    && (forall key :: key in s.kube.eips ==> EipAtRest(w, s, key))
    && (forall p :: p in s.kube.pods ==> Turned(w, s, PodTurn(p)) == s)
    && (forall n :: n in s.kube.nodes ==> Turned(w, s, NodeTurn(n)) == s)
  }

  ghost predicate EipAtRest(w: World, s: State, key: Key)
    requires Sane(w, s)
  {
    exists found, ip :: CanTurn(w, s, EipTurn(key, found, ip)) && Turned(w, s, EipTurn(key, found, ip)) == s
  }

  /** The Eip stays, has its address, and is claimed, if at all, by something that matches. */
  ghost predicate EipCalm(s: State, e: Eip) {
    && e.finalizer && !e.deleting && e.AllocationId().Some?
    && (e.ResourceId().Some? ==> e.ResourceId().value in Kube.Resources(s.kube, e))
  }

  /** The node can act on an Eip: it says where it is and whether it is ready. */
  predicate Usable(w: World, name: string) {
    name in w.nodes && UsableNode(w.nodes[name]) && w.nodes[name].ready.Some?
  }

  ghost predicate NodeCalm(w: World, s: State, name: string)
    requires name in w.nodes
  {
    var choice := NodeChoice(w, s, name);
    choice.Some? ==>
      var e := s.kube.eips[choice.value];
      && (w.Serving(name) ==> Sits(s, e, w.NodePlace(name)))
      && (Usable(w, name) && w.nodes[name].ready.value != "True" ==> e.status == Some(Kube.Cleared(e.status.value)))
  }

  ghost predicate PodCalm(w: World, s: State, key: Key) {
    PodTarget(w, s, key) ==>
      var p := PodOf(s.kube.eips[key]);
      p in s.kube.pods && Served(s, s.kube.pods[p], key, w.podEnis[p])
  }

  ghost predicate AllEipsCalm(s: State) {
    forall key :: key in s.kube.eips ==> EipCalm(s, s.kube.eips[key])
  }

  /** All there is to do is done: what was being deleted is gone, every Eip has its address, no claim is by a
      resource that does not match, every node and pod that can be served has its address where it belongs. */
  ghost predicate Calm(w: World, s: State) {
    && Missing(s) == {} && AllEipsCalm(s)
    && (forall p :: p in s.kube.pods ==> s.kube.pods[p].finalizer && !s.kube.pods[p].deleting)
    && (forall n :: n in s.kube.nodes ==> n in w.nodes && n !in w.leaving && NodeCalm(w, s, n))
    && (forall key {:trigger PodCalm(w, s, key)} :: key in s.kube.eips ==> PodCalm(w, s, key))
  }

  lemma EipRestIsCalm(w: World, s: State, key: Key)
    requires Sane(w, s) && key in s.kube.eips && EipAtRest(w, s, key)
    ensures EipCalm(s, s.kube.eips[key])
  {
    hide Sane, EipApplied, EipCleaned, Kube.PutEip, Progress;
    var e := s.kube.eips[key];
    CurrentKey(w, s, key);
    var found, ip :| CanTurn(w, s, EipTurn(key, found, ip)) && Turned(w, s, EipTurn(key, found, ip)) == s;
    if !e.finalizer {
      EipFinalizerProgress(w, s, e);
    } else if e.deleting {
      CleanProgress(w, s, e, found);
    } else {
      AppliedRestIsCalm(w, s, e, found, ip);
    }
  }

  lemma AppliedRestIsCalm(w: World, s: State, e: Eip, found: seq<nat>, ip: string)
    requires Sane(w, s) && e.key in s.kube.eips && s.kube.eips[e.key] == e && e.finalizer && !e.deleting
    requires Aws.Tagged(s.aws, e.uid, found) && EipApplied(s, e, found, ip) == s
    ensures EipCalm(s, e)
  {
    hide Sane, Allocated;
    if e.AllocationId().None? {
      RecordProgress(w, s, e, found, ip);
      RecordDoes(w, s, e, found, ip);
      NothingToCheck(Allocated(s, e, found, ip), e);
    } else {
      AlreadyRecorded(w, s, e, found, ip);
      if e.ResourceId().Some? && e.ResourceId().value !in Kube.Resources(s.kube, e) {
        DetachDoes(s, e);
      }
    }
  }

  /** When no Eip is being deleted, every cleanup finds the addresses it needs. */
  lemma CalmIsAllocated(w: World, s: State, todo: seq<Eip>)
    requires Sane(w, s) && AllEipsCalm(s) && AllCurrent(s.kube, todo)
    ensures AllAllocated(s.aws, todo)
  {
    hide Sane;
    forall i | 0 <= i < |todo| ensures todo[i].AllocationId().Some? && todo[i].AllocationId().value in s.aws.addrs {
      CurrentKey(w, s, todo[i].key);
      RecordedIsTagged(w, s, todo[i]);
    }
  }

  lemma NodeRestIsCalm(w: World, s: State, name: string)
    requires Sane(w, s) && name in s.kube.nodes && AllEipsCalm(s)
    ensures name in w.nodes && (Turned(w, s, NodeTurn(name)) == s <==> name !in w.leaving && NodeCalm(w, s, name))
  {
    hide Sane, NodeApplied, NodeLeft, NodeCalm, Progress, AllEipsCalm, AllBad;
    NodeIs(w, s, name);
    if name in w.leaving {
      NodeTodoIsBad(w, s, name);
      BadIsCurrent(w, s, NodeTodo(w, s, w.nodes[name]));
      CalmIsAllocated(w, s, NodeTodo(w, s, w.nodes[name]));
      NodeCleanupProgress(w, s, name);
    } else {
      NodeAppliedIsCalm(w, s, name);
    }
  }

  lemma BadIsCurrent(w: World, s: State, todo: seq<Eip>)
    requires AllBad(w, s, todo)
    ensures AllCurrent(s.kube, todo)
  {
  }

  lemma NodeAppliedIsCalm(w: World, s: State, name: string)
    requires Sane(w, s) && name in s.kube.nodes && name in w.nodes && name !in w.leaving && AllEipsCalm(s)
    ensures NodeApplied(s, w.nodes[name], NodeKeys(w, s), w.NodeEni(name)) == s <==> NodeCalm(w, s, name)
  {
    hide Sane, Place, Detach, NodeChoice, NodeKeys, Kube.FirstFree, MatchingNode;
    NodeSelects(w, s, name);
    NodeIs(w, s, name);
    var n := w.nodes[name];
    var choice := NodeChoice(w, s, name);
    if choice.Some? && UsableNode(n) && n.ready.Some? {
      var e := s.kube.eips[choice.value];
      CurrentKey(w, s, choice.value);
      RecordedIsTagged(w, s, e);
      if n.ready.value != "True" {
        DetachDoes(s, e);
      } else if name in w.enis && !Sits(s, e, w.NodePlace(name)) {
        PlaceMoves(s, e, n.name, w.enis[name], n.ip.value);
        assert !s.aws.addrs[e.AllocationId().value].At(w.enis[name], n.ip.value);
      }
    }
  }

  /** A pod at rest stays, and nothing it asks for is missing. */
  lemma PodRestStays(w: World, s: State, p: Key)
    requires Sane(w, s) && p in s.kube.pods && AllEipsCalm(s) && Turned(w, s, PodTurn(p)) == s
    ensures s.kube.pods[p].finalizer && !s.kube.pods[p].deleting && p !in Missing(s)
  {
    hide Sane, PodApplied, CleanedUp, PodTodo, Progress, AllEipsCalm, AllBad, Kube.PutPod;
    PodIs(w, s, p);
    SaneIds(w, s);
    var pod := s.kube.pods[p];
    if !pod.finalizer {
      PodFinalizerProgress(w, s, pod);
    } else if pod.deleting {
      PodTodoIsBad(w, s, pod);
      BadIsCurrent(w, s, PodTodo(w, s, pod));
      CalmIsAllocated(w, s, PodTodo(w, s, pod));
      PodCleanupProgress(w, s, pod);
    } else if p in Missing(s) {
      MissingIsMade(w, s, p);
    }
  }

  lemma MissingIsMade(w: World, s: State, p: Key)
    requires Sane(w, s) && p in s.kube.pods && p in Missing(s) && Keyed(PodCreated(s, s.kube.pods[p]).kube)
    ensures var pod := s.kube.pods[p];
            PodApplied(s, pod, Listing(PodCreated(s, pod).kube.eips.Keys, w.order, p.ns), w.PodEni(s.kube, pod)) != s
  {
    hide Sane, PodPlaced;
    PodIs(w, s, p);
    var pod := s.kube.pods[p];
    var s1 := PodCreated(s, pod);
    CreateProgress(w, s, p);
    SaneIds(w, s1);
    var keys := Listing(s1.kube.eips.Keys, w.order, p.ns);
    assert forall i :: 0 <= i < |keys| ==> keys[i] in keys;
    if w.PodEni(s.kube, pod).Ok? {
      CreatedIsNotPlaced(w, s1, pod, keys, w.podEnis[p]);
    }
  }

  /** The turn of a pod takes the Eip that is its target. */
  lemma PodReaches(w: World, s: State, key: Key)
    requires Sane(w, s) && PodTarget(w, s, key) && !s.kube.eips[key].deleting
    requires var p := PodOf(s.kube.eips[key]);
             p in s.kube.pods && s.kube.pods[p].finalizer && !s.kube.pods[p].deleting && p !in Missing(s)
    ensures var e, p := s.kube.eips[key], PodOf(s.kube.eips[key]);
            && s.kube.pods[p].key == p && p in w.podEnis && s.kube.pods[p].ip.Some?
            && e.key == key && e.AllocationId().Some? && e.AllocationId().value in s.aws.addrs
            && Turned(w, s, PodTurn(p)) == PodTook(s, s.kube.pods[p], e, w.podEnis[p])
  {
    hide PodTook, Sane, OnlyMatch;
    var e, k := s.kube.eips[key], PodOf(s.kube.eips[key]);
    CurrentKey(w, s, key);
    PodIs(w, s, k);
    RecordedIsTagged(w, s, e);
    PodLists(w, s, k.ns);
    MatchesOne(s.kube, k.ns, Listing(s.kube.eips.Keys, w.order, k.ns), k.name, e);
  }

  lemma PodRestIsCalm(w: World, s: State, key: Key)
    requires Sane(w, s) && PodTarget(w, s, key) && AllEipsCalm(s)
    requires var p := PodOf(s.kube.eips[key]); p in s.kube.pods ==> Turned(w, s, PodTurn(p)) == s
    ensures PodCalm(w, s, key)
  {
    hide Sane, PodTook, OnlyMatch;
    var p := PodOf(s.kube.eips[key]);
    ServingPodIsThere(w, s, p);
    PodRestStays(w, s, p);
    PodReaches(w, s, key);
    TookDoes(s, s.kube.pods[p], s.kube.eips[key], w.podEnis[p]);
  }

  lemma ServingPodIsThere(w: World, s: State, p: Key)
    requires Sane(w, s) && w.PodServing(p)
    ensures p in s.kube.pods
  {
  }

  // ---- Calm is rest ----

  lemma CalmEipRests(w: World, s: State, t: Turn)
    requires Sane(w, s) && t.EipTurn? && CanTurn(w, s, t) && t.key in s.kube.eips && EipCalm(s, s.kube.eips[t.key])
    ensures Turned(w, s, t) == s
  {
    hide Sane, Allocated;
    CurrentKey(w, s, t.key);
    AlreadyRecorded(w, s, s.kube.eips[t.key], t.found, t.publicIp);
  }

  lemma CalmPodRests(w: World, s: State, p: Key)
    requires Sane(w, s) && p in s.kube.pods && p !in Missing(s) && s.kube.pods[p].finalizer && !s.kube.pods[p].deleting
    requires AllEipsCalm(s)
    requires forall key {:trigger PodCalm(w, s, key)} :: key in s.kube.eips ==> PodCalm(w, s, key)
    ensures Turned(w, s, PodTurn(p)) == s
  {
    hide Sane, PodTook, MatchingPod, Served;
    PodIs(w, s, p);
    var pod := s.kube.pods[p];
    var keys := Listing(s.kube.eips.Keys, w.order, p.ns);
    PodLists(w, s, p.ns);
    var matched := MatchingPod(s.kube.eips, keys, p.name);
    if Creatable(w, s, p) && w.PodEni(s.kube, pod).Ok? && |matched| == 1 && pod.ip.Some?
       && matched[0].AllocationId().Some? {
      var e := matched[0];
      assert matched == [e];
      MatchedIsStored(s.kube, keys, p.name, e);
      RecordedIsTagged(w, s, e);
      PodSelects(w, s, pod, keys, e);
      assert PodCalm(w, s, e.key);
      ServedStays(s, pod, e, w.podEnis[p]);
    }
  }

  lemma CalmStays(w: World, s: State, t: Turn)
    requires Sane(w, s) && Calm(w, s) && CanTurn(w, s, t)
    ensures Turned(w, s, t) == s
  {
    hide Sane, EipCalm, NodeCalm, PodCalm, EipTurned, PodTurned, NodeApplied, NodeLeft;
    match t {
      case EipTurn(key, _, _) => if key in s.kube.eips { CalmEipRests(w, s, t); }
      case PodTurn(p) => if p in s.kube.pods { CalmPodRests(w, s, p); }
      case NodeTurn(n) => if n in s.kube.nodes { NodeRestIsCalm(w, s, n); }
    }
  }

  /** There is always a listing of the addresses with a tag. */
  lemma TaggedExists(w: World, s: State, uid: nat) returns (found: seq<nat>)
    requires Sane(w, s)
    ensures Aws.Tagged(s.aws, uid, found)
  {
    if x :| x in s.aws.addrs && s.aws.addrs[x].uid == uid {
      found := [x];
    } else {
      found := [];
    }
  }

  lemma RestCalms(w: World, s: State)
    requires Sane(w, s) && AtRest(w, s)
    ensures Calm(w, s)
  {
    hide Sane, Turned, EipCalm, NodeCalm, PodCalm, Missing;
    forall key | key in s.kube.eips ensures EipCalm(s, s.kube.eips[key]) {
      EipRestIsCalm(w, s, key);
    }
    forall p | p in s.kube.pods ensures s.kube.pods[p].finalizer && !s.kube.pods[p].deleting && p !in Missing(s) {
      PodRestStays(w, s, p);
    }
    forall p | p in Missing(s) ensures p in s.kube.pods {
      MissingHasPod(s, p);
    }
    forall n | n in s.kube.nodes ensures n in w.nodes && n !in w.leaving && NodeCalm(w, s, n) {
      NodeRestIsCalm(w, s, n);
    }
    forall key | key in s.kube.eips ensures PodCalm(w, s, key) {
      if PodTarget(w, s, key) {
        PodRestIsCalm(w, s, key);
      } else {
        NoTargetIsCalm(w, s, key);
      }
    }
  }

  lemma MissingHasPod(s: State, p: Key)
    requires p in Missing(s)
    ensures p in s.kube.pods
  {
  }

  lemma NoTargetIsCalm(w: World, s: State, key: Key)
    requires !PodTarget(w, s, key)
    ensures PodCalm(w, s, key)
  {
  }

  /** The states of rest are exactly the calm ones. */
  lemma RestIsCalm(w: World, s: State)
    requires Sane(w, s)
    ensures AtRest(w, s) <==> Calm(w, s)
  {
    hide Sane, Turned, Calm;
    if AtRest(w, s) {
      RestCalms(w, s);
    }
    if Calm(w, s) {
      forall key | key in s.kube.eips ensures EipAtRest(w, s, key) {
        var found := TaggedExists(w, s, s.kube.eips[key].uid);
        CalmStays(w, s, EipTurn(key, found, ""));
      }
      forall p | p in s.kube.pods ensures Turned(w, s, PodTurn(p)) == s {
        CalmStays(w, s, PodTurn(p));
      }
      forall n | n in s.kube.nodes ensures Turned(w, s, NodeTurn(n)) == s {
        CalmStays(w, s, NodeTurn(n));
      }
    }
  }

  /** The same reconcile, whatever the cloud answers. */
  predicate Alike(t: Turn, t': Turn) {
    t == t' || (t.EipTurn? && t'.EipTurn? && t.key == t'.key)
  }

  ghost predicate ComesAgain(turns: nat -> Turn, n: nat, t: Turn) {
    exists i: nat :: i >= n && Alike(turns(i), t)
  }

  /** Every Eip, pod and node gets a turn again and again. */
  ghost predicate Fair(w: World, run: nat -> State, turns: nat -> Turn) {
    && (forall n: nat, key :: key in run(n).kube.eips ==> ComesAgain(turns, n, EipTurn(key, [], "")))
    && (forall n: nat, p :: p in w.pods ==> ComesAgain(turns, n, PodTurn(p)))
    && (forall n: nat, name :: name in w.nodes ==> ComesAgain(turns, n, NodeTurn(name)))
  }

  lemma IdleTurn(w: World, run: nat -> State, turns: nat -> Turn, n: nat, t: Turn) returns (t': Turn)
    requires IsRun(w, run, turns) && StillFrom(run, n) && ComesAgain(turns, n, t)
    ensures Sane(w, run(n)) && Alike(t', t) && CanTurn(w, run(n), t') && Turned(w, run(n), t') == run(n)
  {
    hide Sane, CanTurn, Turned;
    var i: nat :| i >= n && Alike(turns(i), t);
    AlwaysSane(w, run, turns, i);
    assert run(i) == run(n) && run(i + 1) == run(n);
    t' := turns(i);
  }

  /** Convergence: a fair run reaches a calm state and stays in it. */
  lemma Converges(w: World, run: nat -> State, turns: nat -> Turn) returns (n: nat)
    requires IsRun(w, run, turns) && Fair(w, run, turns)
    ensures StillFrom(run, n) && Calm(w, run(n))
  {
    hide Sane, Turned, Calm, ComesAgain, StillFrom, IsRun;
    n := ComesToRest(w, run, turns, 0);
    var s := run(n);
    AlwaysSane(w, run, turns, n);
    forall key | key in s.kube.eips ensures EipAtRest(w, s, key) {
      var t := IdleTurn(w, run, turns, n, EipTurn(key, [], ""));
      assert t == EipTurn(key, t.found, t.publicIp);
    }
    forall p | p in s.kube.pods ensures Turned(w, s, PodTurn(p)) == s {
      PodIs(w, s, p);
      assert ComesAgain(turns, n, PodTurn(p));
      var t := IdleTurn(w, run, turns, n, PodTurn(p));
    }
    forall name | name in s.kube.nodes ensures Turned(w, s, NodeTurn(name)) == s {
      NodeIs(w, s, name);
      assert ComesAgain(turns, n, NodeTurn(name));
      var t := IdleTurn(w, run, turns, n, NodeTurn(name));
    }
    RestIsCalm(w, s);
  }

  // ---- Nodes that are not ready ----

  /** A node that is not ready withdraws its claim on an Eip exactly when it says where it is and whether it is
      ready, and that Eip is its first choice: no matching Eip listed earlier is free or its own. */
  lemma NotReadyWithdraws(w: World, s: State, name: string, key: Key)
    requires Sane(w, s) && name in s.kube.nodes && name in w.nodes && name !in w.leaving
    requires w.nodes[name].ready != Some("True")
    requires key in s.kube.eips && s.kube.eips[key].ResourceId() == Some(name)
    ensures key in Turned(w, s, NodeTurn(name)).kube.eips
    ensures Turned(w, s, NodeTurn(name)).kube.eips[key].ResourceId() == None <==>
              Usable(w, name) && NodeChoice(w, s, name) == Some(key)
  {
    hide Sane, Place, Detach, NodeChoice, NodeKeys, Kube.FirstFree, MatchingNode, NodeLeft;
    NodeSelects(w, s, name);
    var choice := NodeChoice(w, s, name);
    if choice.Some? {
      CurrentKey(w, s, choice.value);
      DetachDoes(s, s.kube.eips[choice.value]);
    }
  }

  predicate ListedBefore(keys: seq<Key>, a: Key, b: Key) {
    exists i, j :: 0 <= i < j < |keys| && keys[i] == a && keys[j] == b
  }

  /** So at rest, a node that is not ready still holds a claim on a matching Eip only if it does not say where
      it is or whether it is ready, or if its first choice is an Eip listed before, which nobody claims. */
  lemma NotReadyAtRest(w: World, s: State, name: string, key: Key)
    requires Sane(w, s) && Calm(w, s) && name in s.kube.nodes && name in w.nodes && w.nodes[name].ready != Some("True")
    requires key in NodeKeys(w, s) && s.kube.eips[key].MatchesNode(w.nodes[name].labels)
    requires s.kube.eips[key].ResourceId() == Some(name)
    ensures Usable(w, name) ==>
              var choice := NodeChoice(w, s, name);
              && choice.Some? && s.kube.eips[choice.value].ResourceId() == None
              && ListedBefore(NodeKeys(w, s), choice.value, key)
  {
    hide Sane, EipCalm, PodCalm, NodeKeys;
    NodeIs(w, s, name);
    assert s.kube.eips[key].FreeFor(name);
    assert NodeCalm(w, s, name);
    if Usable(w, name) {
      var keys := NodeKeys(w, s);
      var j :| 0 <= j < |keys| && keys[j] == key;
      ChosenIsEarliest(s.kube.eips, keys, w.nodes[name], j);
      var i :| 0 <= i <= j && keys[i] == NodeChoice(w, s, name).value;
      assert i != j;
    }
  }

  // ---- Reachable states ----

  lemma FlagsStep(c: Config, s: State, step: Step)
    requires Inv(c, s) && FlagsSane(s.kube) && Next(c, s, step).Some?
    ensures FlagsSane(Next(c, s, step).value.kube)
  {
    hide RunTask, OrphansOf, KubeAfter, AwsAfter, StoreInv, TasksOk, PhaseOk;
    KeysAreKeys(c, s);
    if step.Run? {
      CallEffect(c, s, step.owner, s.tasks[step.owner], step.choice);
      FlagsCall(s.kube, s.tasks[step.owner]);
    }
  }

  lemma KeysAreKeys(c: Config, s: State)
    requires StoreInv(c, s)
    ensures Keyed(s.kube) && forall p :: p in s.kube.pods ==> s.kube.pods[p].key == p
  {
    hide LogOk, LinksOk, WatchOk, AwsOk, OnePerUid;
  }

  lemma FlagsCall(k: Kube.Store, t: Task)
    requires Keyed(k) && FlagsSane(k)
    ensures FlagsSane(KubeAfter(k, t))
  {
  }

  lemma {:induction false} FlagsRun(c: Config, s: State, run: seq<Step>)
    requires Inv(c, s) && FlagsSane(s.kube) && CanRun(c, s, run)
    ensures FlagsSane(After(c, s, run).kube)
    decreases |run|
  {
    hide Next, Inv, FlagsSane;
    if run != [] {
      FlagsStep(c, s, run[0]);
      Runs.InvStep(c, s, run[0]);
      FlagsRun(c, Next(c, s, run[0]).value, run[1..]);
    }
  }

  lemma ReachableFlags(c: Config, s: State)
    requires Runs.Reachable(c, s)
    ensures FlagsSane(s.kube)
  {
    hide Next, Inv;
    Runs.InitInv(c);
    var run :| CanRun(c, Init(), run) && After(c, Init(), run) == s;
    FlagsRun(c, Init(), run);
  }

  /** Every reachable state is one from which this convergence starts. */
  lemma ReachableIsSane(c: Config, w: World, s: State)
    requires Runs.Reachable(c, s) && w.Valid() && Fits(w, s.kube)
    ensures Sane(w, s)
  {
    hide PodsOk, TasksOk, PhaseOk, World.Valid, Fits, FlagsSane;
    Runs.ReachableInv(c, s);
    ReachableFlags(c, s);
    forall key | key in s.kube.eips ensures StatusSane(s, s.kube.eips[key]) && s.kube.eips[key].uid < s.kube.next {
      assert StatusOk(c, s.kube.eips[key]) && AllocationOk(s, s.kube.eips[key]);
    }
    forall x | x in s.aws.addrs ensures s.aws.addrs[x].uid < s.kube.next {
      assert Owned(c, s, x);
    }
  }
}
