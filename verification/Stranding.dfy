/** Which turn strands an address: at a node in service, and not claimed by it any more. */
module Stranding {
  import opened Base
  import opened Protocol
  import opened Atomic
  import opened Detaching
  import opened Settling
  import opened Convergence
  import opened ApplyTurns
  import opened Turning
  import opened Rest
  import opened Limits
  import Kube
  import Aws

  /** An Eip's address that is at the place afterwards was there before, and the node's claim is not lost. */
  ghost predicate Keeps(s: State, s': State, key: Key, name: string, place: (string, string))
    requires key in s.kube.eips
  {
    key in s'.kube.eips && Sits(s', s'.kube.eips[key], place) ==>
      Sits(s, s.kube.eips[key], place) && (ClaimedFor(s, key, name) ==> ClaimedFor(s', key, name))
  }

  // ---- What one write or one call does ----

  /** The address of the place stays away from it unless it is brought there. */
  predicate NoneCome(a: Aws.Cloud, a': Aws.Cloud, place: (string, string)) {
    forall x :: x in a'.addrs && a'.addrs[x].At(place.0, place.1) ==> x in a.addrs && a.addrs[x].At(place.0, place.1)
  }

  lemma AssociateElsewhere(a: Aws.Cloud, x: nat, eni: string, ip: string, place: (string, string))
    requires x in a.addrs && place != (eni, ip)
    ensures NoneCome(a, Aws.Associate(a, x, eni, ip), place)
  {
  }

  lemma DisassociateElsewhere(a: Aws.Cloud, id: nat, place: (string, string))
    ensures NoneCome(a, Aws.Disassociate(a, id), place)
  {
  }

  lemma RewriteKeepsClaim(s: State, s': State, written: Key, key: Key, name: string, place: (string, string))
    requires Rewrites(s, s', written) && NoneCome(s.aws, s'.aws, place) && key in s.kube.eips
    requires s'.kube.eips[written].AllocationId() == s.kube.eips[written].AllocationId()
    requires !ClaimedFor(s, written, name)
    ensures key in s'.kube.eips && Keeps(s, s', key, name, place)
    ensures !ClaimedFor(s', written, name) ==> (ClaimedFor(s', key, name) <==> ClaimedFor(s, key, name))
  {
  }

  lemma MarksKeep(s: State, s': State, key: Key, name: string, place: (string, string))
    requires Marks(s.kube, s'.kube) && s'.aws == s.aws && key in s.kube.eips
    ensures Keeps(s, s', key, name, place)
  {
  }

  // ---- Cleanups ----

  ghost predicate NotFor(todo: seq<Eip>, name: string) {
    forall i :: 0 <= i < |todo| ==> todo[i].ResourceId() != Some(name)
  }

  lemma LoosenKeeps(w: World, s: State, e: Eip, key: Key, name: string, place: (string, string))
    requires Sane(w, s) && e.key in Bad(w, s) && s.kube.eips[e.key] == e && e.ResourceId() != Some(name)
    requires e.AllocationId().Some? && e.AllocationId().value in s.aws.addrs && key in s.kube.eips
    ensures key in LoosenOne(s, e).kube.eips && Keeps(s, LoosenOne(s, e), key, name, place)
  {
    hide Sane, OnlyStatus, Rewrites;
    DetachDoes(s, e);
    var s' := LoosenOne(s, e);
    StatusRewrites(s, s', e.key, Kube.Cleared(e.status.value));
    if s.aws.addrs[e.AllocationId().value].association.Some? {
      DisassociateElsewhere(s.aws, s.aws.addrs[e.AllocationId().value].association.value.id, place);
    }
    Written(s, s', e.key);
    RewriteKeepsClaim(s, s', e.key, key, name, place);
  }

  lemma Written(s: State, s': State, key: Key)
    requires key in s.kube.eips && s.kube.eips[key].status.Some?
    requires OnlyStatus(s.kube, s'.kube, key, Kube.Cleared(s.kube.eips[key].status.value))
    ensures s'.kube.eips[key].AllocationId() == s.kube.eips[key].AllocationId()
  {
  }

  lemma {:induction false} LoosenedKeeps(w: World, s: State, todo: seq<Eip>, key: Key, name: string,
                                         place: (string, string))
    requires Sane(w, s) && AllBad(w, s, todo) && NotFor(todo, name) && key in s.kube.eips
    ensures key in Loosened(s, todo).kube.eips && Keeps(s, Loosened(s, todo), key, name, place)
    decreases |todo|
  {
    hide Sane, Distance, LoosenOne, Bad, Sits, ClaimedFor;
    if todo != [] && todo[0].AllocationId().Some? && todo[0].AllocationId().value in s.aws.addrs {
      var s1 := LoosenOne(s, todo[0]);
      LoosenProgress(w, s, todo[0]);
      StillBad(w, s, s1, todo);
      LoosenKeeps(w, s, todo[0], key, name, place);
      LoosenedKeeps(w, s1, todo[1..], key, name, place);
    }
  }

  lemma PodTodoIsNotFor(w: World, s: State, p: Pod, name: string)
    requires Sane(w, s) && p.key in s.kube.pods && s.kube.pods[p.key] == p && p.deleting && w.Serving(name)
    ensures NotFor(PodTodo(w, s, p), name)
  {
    hide IdsSane;
    PodLists(w, s, p.key.ns);
    PodIs(w, s, p.key);
    ClaimedAreCurrent(s.kube, p.key.ns, Listing(s.kube.eips.Keys, w.order, p.key.ns), PodActor(p));
    var todo := PodTodo(w, s, p);
    forall i | 0 <= i < |todo| ensures todo[i].ResourceId() != Some(name) {
      assert todo[i] in todo && MustFree(s.kube, p.key.ns, PodActor(p), todo[i]);
    }
  }

  lemma PodCleanupKeeps(w: World, s: State, p: Pod, key: Key, name: string)
    requires Sane(w, s) && p.key in s.kube.pods && s.kube.pods[p.key] == p && p.deleting && w.Serving(name)
    requires key in s.kube.eips
    ensures Keeps(s, CleanedUp(s, PodActor(p), PodTodo(w, s, p)), key, name, w.NodePlace(name))
  {
    hide Sane, Distance, Tail, Gone, AllAllocated, PodTodo, Sits, ClaimedFor;
    var todo := PodTodo(w, s, p);
    PodTodoIsBad(w, s, p);
    PodTodoIsNotFor(w, s, p, name);
    LoosenedProgress(w, s, todo);
    LoosenedKeeps(w, s, todo, key, name, w.NodePlace(name));
    if AllAllocated(s.aws, todo) {
      var s1 := Loosened(s, todo);
      SaneFlags(w, s1);
      PodGoesIs(s1.kube, p);
      MarksKeep(s1, CleanedUp(s, PodActor(p), todo), key, name, w.NodePlace(name));
    }
  }

  lemma SaneFlags(w: World, s: State)
    requires Sane(w, s)
    ensures Keyed(s.kube) && FlagsSane(s.kube)
  {
  }

  lemma NodeCleanupKeeps(w: World, s: State, other: string, key: Key, name: string)
    requires Sane(w, s) && other in s.kube.nodes && other in w.leaving && other in w.nodes && w.Serving(name)
    requires key in s.kube.eips
    ensures Keeps(s, NodeLeft(w, s, w.nodes[other]), key, name, w.NodePlace(name))
  {
    hide Sane, Distance, AllAllocated, NodeTodo, NodeLeft, Sits, ClaimedFor;
    var todo := NodeTodo(w, s, w.nodes[other]);
    NodeIs(w, s, other);
    NodeTodoIsBad(w, s, other);
    NodeTodoIsNotFor(w, s, other, name);
    LoosenedProgress(w, s, todo);
    LoosenedKeeps(w, s, todo, key, name, w.NodePlace(name));
    NodeLeftIs(w, s, w.nodes[other]);
    MarksKeep(Loosened(s, todo), NodeLeft(w, s, w.nodes[other]), key, name, w.NodePlace(name));
  }

  lemma NodeTodoIsNotFor(w: World, s: State, other: string, name: string)
    requires Sane(w, s) && other in s.kube.nodes && other in w.nodes && w.nodes[other].name == other && other != name
    ensures NotFor(NodeTodo(w, s, w.nodes[other]), name)
  {
    hide IdsSane;
    PodLists(w, s, w.ns);
    var n := w.nodes[other];
    ClaimedAreCurrent(s.kube, w.ns, NodeKeys(w, s), NodeActor(n));
    var todo := NodeTodo(w, s, n);
    forall i | 0 <= i < |todo| ensures todo[i].ResourceId() != Some(name) {
      assert todo[i] in todo && MustFree(s.kube, w.ns, NodeActor(n), todo[i]);
    }
  }

  // ---- Applies ----

  lemma PlaceKeepsOthers(w: World, s: State, e: Eip, resource: string, eni: string, ip: string, key: Key,
                         name: string, place: (string, string))
    requires e.key in s.kube.eips && s.kube.eips[e.key] == e && e.status.Some? && e.ResourceId() != Some(name)
    requires e.AllocationId().Some? && e.AllocationId().value in s.aws.addrs && place != (eni, ip) && key in s.kube.eips
    ensures Keeps(s, Place(s, e, resource, eni, ip), key, name, place)
  {
    hide Place, Rewrites, NoneCome;
    var s' := Place(s, e, resource, eni, ip);
    PlaceDoes(s, e, resource, eni, ip);
    PlaceMoves(s, e, resource, eni, ip);
    StatusRewrites(s, s', e.key, s'.kube.eips[e.key].status.value);
    AssociateElsewhere(s.aws, e.AllocationId().value, eni, ip, place);
    RewriteKeepsClaim(s, s', e.key, key, name, place);
  }

  lemma DetachKeepsOthers(s: State, e: Eip, key: Key, name: string, place: (string, string))
    requires e.key in s.kube.eips && s.kube.eips[e.key] == e && e.status.Some? && e.ResourceId() != Some(name)
    requires key in s.kube.eips
    ensures Keeps(s, Detach(s, e), key, name, place)
  {
    hide Detach, Rewrites;
    DetachDoes(s, e);
    StatusRewrites(s, Detach(s, e), e.key, Kube.Cleared(e.status.value));
    RewriteKeepsClaim(s, Detach(s, e), e.key, key, name, place);
  }

  lemma NodeKeeps(w: World, s: State, other: string, key: Key, name: string)
    requires Sane(w, s) && Stays(w, s, other) && w.Serving(name) && other != name && key in s.kube.eips
    ensures Keeps(s, Turned(w, s, NodeTurn(other)), key, name, w.NodePlace(name))
  {
    hide Sane, Turned, Detach, Place, NodeChoice, Keeps;
    KeepsItself(s, key, name, w.NodePlace(name));
    NodeIs(w, s, other);
    Places(w, s, other, name);
    if w.nodes[other].ready != Some("True") {
      NotReadyTurn(w, s, other);
      if Usable(w, other) && NodeChoice(w, s, other).Some? {
        DetachKeepsOthers(s, s.kube.eips[NodeChoice(w, s, other).value], key, name, w.NodePlace(name));
      }
    } else if w.Serving(other) {
      ReadyTurn(w, s, other);
      if TakesChoice(w, s, other) {
        PlaceKeepsOthers(w, s, s.kube.eips[NodeChoice(w, s, other).value], other, w.enis[other],
                         w.nodes[other].ip.value, key, name, w.NodePlace(name));
      }
    } else {
      NoPlaceTurn(w, s, other);
    }
  }

  lemma KeepsItself(s: State, key: Key, name: string, place: (string, string))
    requires key in s.kube.eips
    ensures Keeps(s, s, key, name, place)
  {
  }

  lemma Places(w: World, s: State, other: string, name: string)
    requires Sane(w, s) && w.Serving(name) && other != name
    ensures w.Serving(other) ==> w.NodePlace(other) != w.NodePlace(name)
  {
  }

  /** A ready node that does not say where it is, or has no interface, can do nothing. */
  lemma NoPlaceTurn(w: World, s: State, other: string)
    requires Sane(w, s) && Stays(w, s, other) && w.nodes[other].ready == Some("True") && !w.Serving(other)
    ensures Turned(w, s, NodeTurn(other)) == s
  {
    hide Sane, Place, Detach, NodeKeys, Kube.FirstFree, MatchingNode;
  }

  lemma PodKeeps(w: World, s: State, p: Pod, e: Eip, key: Key, name: string)
    requires Sane(w, s) && Takes(w, s, p, e) && w.Serving(name) && key in s.kube.eips
    ensures Keeps(s, PodTook(s, p, e, w.podEnis[p.key]), key, name, w.NodePlace(name))
  {
    hide Sane, PodTook, Brings, PodTarget, Rewrites, NoneCome;
    var eni := w.podEnis[p.key];
    PodPlaces(w, s, p, e, name);
    TookDoes(s, p, e, eni);
    TookAws(s, p, e, eni);
    AssociateElsewhere(s.aws, e.AllocationId().value, eni, p.ip.value, w.NodePlace(name));
    StaysAway(s.aws, w.NodePlace(name));
    RewriteKeepsClaim(s, PodTook(s, p, e, eni), e.key, key, name, w.NodePlace(name));
  }

  lemma StaysAway(a: Aws.Cloud, place: (string, string))
    ensures NoneCome(a, a, place)
  {
  }

  lemma PodPlaces(w: World, s: State, p: Pod, e: Eip, name: string)
    requires Sane(w, s) && Takes(w, s, p, e) && w.Serving(name)
    ensures w.PodPlace(p.key) != w.NodePlace(name) && !ClaimedFor(s, e.key, name)
  {
    assert StatusSane(s, e);
  }

  lemma PlacedKeeps(w: World, s: State, p: Pod, keys: seq<Key>, key: Key, name: string)
    requires Sane(w, s) && p.key in s.kube.pods && s.kube.pods[p.key] == p
    requires keys == Listing(s.kube.eips.Keys, w.order, p.key.ns)
    requires Keyed(s.kube) && forall i :: 0 <= i < |keys| ==> keys[i] in s.kube.eips
    requires p.key in w.pods && PodFits(w.pods[p.key], p) && !p.deleting
    requires p.nodeName.Some? && w.PodEni(s.kube, p).Ok? && Creatable(w, s, p.key)
    requires w.Serving(name) && key in s.kube.eips
    ensures Keeps(s, PodPlaced(s, p, keys, w.podEnis[p.key]), key, name, w.NodePlace(name))
  {
    hide Sane, PodTook, Keeps, MatchingPod, Takes;
    KeepsItself(s, key, name, w.NodePlace(name));
    var matched := MatchingPod(s.kube.eips, keys, p.key.name);
    if |matched| == 1 && p.ip.Some? && matched[0].AllocationId().Some? {
      var e := matched[0];
      assert matched == [e];
      if e.AllocationId().value in s.aws.addrs {
        PodSelects(w, s, p, keys, e);
        PodKeeps(w, s, p, e, key, name);
        TakesAddress(w, s, p, e);
      } else {
        MatchedIsStored(s.kube, keys, p.key.name, e);
        NotTaken(s, p, e, w.podEnis[p.key]);
      }
    }
  }

  lemma CreateKeeps(s: State, p: Pod, key: Key, name: string, place: (string, string))
    requires key in s.kube.eips
    ensures key in PodCreated(s, p).kube.eips && PodCreated(s, p).kube.eips[key] == s.kube.eips[key]
    ensures PodCreated(s, p).aws == s.aws
    ensures Keeps(s, PodCreated(s, p), key, name, place)
  {
  }

  lemma PodApplyKeeps(w: World, s: State, p: Pod, key: Key, name: string)
    requires Sane(w, s) && p.key in s.kube.pods && s.kube.pods[p.key] == p && !p.deleting
    requires Keyed(PodCreated(s, p).kube)
    requires w.Serving(name) && key in s.kube.eips
    ensures var keys := Listing(PodCreated(s, p).kube.eips.Keys, w.order, p.key.ns);
            Keeps(s, PodApplied(s, p, keys, w.PodEni(s.kube, p)), key, name, w.NodePlace(name))
  {
    hide Sane, Distance, PodPlaced, Progress, Keeps;
    PodIs(w, s, p.key);
    var s1 := PodCreated(s, p);
    SaneIds(w, s);
    var keys := Listing(s1.kube.eips.Keys, w.order, p.key.ns);
    assert forall i :: 0 <= i < |keys| ==> keys[i] in keys;
    KeepsItself(s, key, name, w.NodePlace(name));
    CreateKeeps(s, p, key, name, w.NodePlace(name));
    if p.autocreate && p.key !in s.kube.eips {
      CreateProgress(w, s, p.key);
      ProgressSane(w, s, s1);
      if w.PodEni(s.kube, p).Ok? {
        CreatedIsNotPlaced(w, s1, p, keys, w.podEnis[p.key]);
      }
    } else {
      assert s1 == s;
      if p.nodeName.Some? && w.PodEni(s.kube, p).Ok? && Creatable(w, s, p.key) {
        PlacedKeeps(w, s, p, keys, key, name);
      }
    }
  }

  /** Statuses of other Eips and associations elsewhere do not matter. */
  lemma OthersKeep(s: State, s': State, written: Key, status: Status, key: Key, name: string, place: (string, string))
    requires OnlyStatus(s.kube, s'.kube, written, status) && key in s.kube.eips && key != written
    requires s.kube.eips[key].AllocationId().Some?
    requires forall x ::
               && x in s'.aws.addrs && s'.aws.addrs[x].At(place.0, place.1)
               && s.kube.eips[key].AllocationId() == Some(x) ==>
                 x in s.aws.addrs && s.aws.addrs[x].At(place.0, place.1)
    ensures Keeps(s, s', key, name, place)
  {
  }

  lemma AllocateKeeps(w: World, s: State, e: Eip, found: seq<nat>, publicIp: string, key: Key, name: string,
                      place: (string, string))
    requires Sane(w, s) && e.key in s.kube.eips && s.kube.eips[e.key] == e && Aws.Tagged(s.aws, e.uid, found)
    requires |found| <= 1
    requires key in s.kube.eips && key != e.key && s.kube.eips[key].AllocationId().Some?
    ensures Keeps(s, Allocated(s, e, found, publicIp), key, name, place)
  {
    hide Sane, Allocated, OnlyStatus, Keeps;
    RecordDoes(w, s, e, found, publicIp);
    var s' := Allocated(s, e, found, publicIp);
    var alloc := if found == [] then s.aws.next else found[0];
    var ip := if found == [] then publicIp else s.aws.addrs[alloc].publicIp;
    OthersKeep(s, s', e.key, Kube.CurrentStatus(s.kube, e.key).(allocationId := Some(alloc), publicIp := Some(ip)),
               key, name, place);
  }

  lemma CheckKeeps(s: State, e: Eip, key: Key, name: string, place: (string, string))
    requires e.key in s.kube.eips && s.kube.eips[e.key] == e && key in s.kube.eips && key != e.key
    requires s.kube.eips[key].AllocationId().Some?
    ensures Keeps(s, Checked(s, e), key, name, place)
  {
    hide OnlyStatus, Keeps;
    KeepsItself(s, key, name, place);
    if e.ResourceId().Some? && e.ResourceId().value !in Kube.Resources(s.kube, e) {
      DetachDoes(s, e);
      OthersKeep(s, Checked(s, e), e.key, Kube.Cleared(e.status.value), key, name, place);
    }
  }

  lemma CleanKeeps(s: State, e: Eip, found: seq<nat>, key: Key, name: string, place: (string, string))
    requires key in s.kube.eips && key != e.key
    ensures Keeps(s, EipCleaned(s, e, found), key, name, place)
  {
  }

  /** Another Eip's turn does not touch this one: addresses may come and go, but not this one's. */
  lemma EipKeeps(w: World, s: State, e: Eip, found: seq<nat>, publicIp: string, key: Key, name: string,
                 place: (string, string))
    requires Sane(w, s) && e.key in s.kube.eips && s.kube.eips[e.key] == e && Aws.Tagged(s.aws, e.uid, found)
    requires key in s.kube.eips && key != e.key && s.kube.eips[key].AllocationId().Some?
    ensures Keeps(s, EipTurned(s, e, found, publicIp), key, name, place)
  {
    hide Sane, Allocated, Checked, EipCleaned, Keeps;
    if !e.finalizer {
      MarksKeep(s, EipTurned(s, e, found, publicIp), key, name, place);
    } else if e.deleting {
      CleanKeeps(s, e, found, key, name, place);
    } else if e.AllocationId().None? {
      FoundIsRecorded(w, s, e, found);
      RecordProgress(w, s, e, found, publicIp);
      AllocateKeeps(w, s, e, found, publicIp, key, name, place);
      NothingToCheck(Allocated(s, e, found, publicIp), e);
    } else {
      AlreadyRecorded(w, s, e, found, publicIp);
      CheckKeeps(s, e, key, name, place);
    }
  }

  // ---- Turns ----

  lemma PodTurnKeeps(w: World, s: State, p: Key, key: Key, name: string)
    requires Sane(w, s) && w.Serving(name) && key in s.kube.eips
    ensures Keeps(s, Turned(w, s, PodTurn(p)), key, name, w.NodePlace(name))
  {
    hide Sane, PodApplied, CleanedUp, PodTodo, Keeps, PodCreated;
    KeepsItself(s, key, name, w.NodePlace(name));
    SaneIds(w, s);
    if p in s.kube.pods {
      PodIs(w, s, p);
      var pod := s.kube.pods[p];
      CreatedKeys(s, pod);
      if !pod.finalizer {
        MarksKeep(s, Turned(w, s, PodTurn(p)), key, name, w.NodePlace(name));
      } else if pod.deleting {
        PodCleanupKeeps(w, s, pod, key, name);
      } else {
        PodApplyKeeps(w, s, pod, key, name);
      }
    }
  }

  lemma NodeTurnKeeps(w: World, s: State, other: string, key: Key, name: string)
    requires Sane(w, s) && w.Serving(name) && other != name && key in s.kube.eips
    ensures Keeps(s, Turned(w, s, NodeTurn(other)), key, name, w.NodePlace(name))
  {
    hide Sane, NodeApplied, NodeLeft, Keeps;
    KeepsItself(s, key, name, w.NodePlace(name));
    if other in s.kube.nodes {
      NodeIs(w, s, other);
      if other in w.leaving {
        NodeCleanupKeeps(w, s, other, key, name);
      } else {
        NodeKeeps(w, s, other, key, name);
      }
    }
  }

  lemma OwnNodeKeeps(w: World, s: State, key: Key, name: string)
    requires Sane(w, s) && w.Serving(name) && key in s.kube.eips
    requires AttachedUnclaimed(Turned(w, s, NodeTurn(name)), key, name, w.NodePlace(name))
    ensures AttachedUnclaimed(s, key, name, w.NodePlace(name))
  {
    hide Sane, NodeChoice;
    if Stays(w, s, name) {
      hide Turned, AttachedUnclaimed;
      ReadyLeavesUnclaimed(w, s, name, key);
    }
  }

  /** What the Eip's own turn does besides an apply. */
  lemma OwnTurnKeeps(w: World, s: State, t: Turn, name: string, place: (string, string))
    requires Sane(w, s) && t.EipTurn? && CanTurn(w, s, t) && t.key in s.kube.eips
    requires !s.kube.eips[t.key].finalizer || s.kube.eips[t.key].deleting
    requires AttachedUnclaimed(Turned(w, s, t), t.key, name, place)
    ensures AttachedUnclaimed(s, t.key, name, place)
  {
    hide World.Valid, IdsSane, Fits;
  }

  /** The reconcile of the Eip withdraws the node's claim, and the status does not name the association. */
  ghost predicate Strands(w: World, s: State, t: Turn, key: Key, name: string)
    requires key in s.kube.eips && w.Serving(name)
  {
    var e := s.kube.eips[key];
    && t.EipTurn? && t.key == key && e.finalizer && !e.deleting && ClaimedFor(s, key, name)
    && name !in Kube.Resources(s.kube, e) && Sits(s, e, w.NodePlace(name)) && Misnamed(s, e)
  }

  /** Of all turns, exactly such a reconcile leaves a node in service with an address that it does not claim,
      if it had none before. */
  lemma OnlyWithdrawalStrands(w: World, s: State, t: Turn, key: Key, name: string)
    requires Sane(w, s) && CanTurn(w, s, t) && w.Serving(name)
    requires key in s.kube.eips && s.kube.eips[key].AllocationId().Some?
    requires !AttachedUnclaimed(s, key, name, w.NodePlace(name))
    ensures AttachedUnclaimed(Turned(w, s, t), key, name, w.NodePlace(name)) <==> Strands(w, s, t, key, name)
  {
    hide Sane, Turned, EipTurned, Sits, Misnamed, Kube.Resources;
    match t {
      case PodTurn(p) => PodTurnKeeps(w, s, p, key, name);
      case NodeTurn(other) =>
        if other == name {
          if AttachedUnclaimed(Turned(w, s, t), key, name, w.NodePlace(name)) {
            OwnNodeKeeps(w, s, key, name);
          }
        } else {
          NodeTurnKeeps(w, s, other, key, name);
        }
      case EipTurn(other, found, publicIp) => OnlyEipStrands(w, s, t, key, name);
    }
  }

  lemma OnlyEipStrands(w: World, s: State, t: Turn, key: Key, name: string)
    requires Sane(w, s) && CanTurn(w, s, t) && w.Serving(name) && t.EipTurn?
    requires key in s.kube.eips && s.kube.eips[key].AllocationId().Some?
    requires !AttachedUnclaimed(s, key, name, w.NodePlace(name))
    ensures AttachedUnclaimed(Turned(w, s, t), key, name, w.NodePlace(name)) <==> Strands(w, s, t, key, name)
  {
    hide Sane, EipTurned, Sits, Misnamed, Kube.Resources;
    if t.key == key {
      if s.kube.eips[key].finalizer && !s.kube.eips[key].deleting {
        hide Turned;
        EipTurnLeavesAddress(w, s, t, name, w.NodePlace(name));
      } else if AttachedUnclaimed(Turned(w, s, t), key, name, w.NodePlace(name)) {
        OwnTurnKeeps(w, s, t, name, w.NodePlace(name));
      }
    } else if t.key in s.kube.eips {
      CurrentKey(w, s, t.key);
      EipKeeps(w, s, s.kube.eips[t.key], t.found, t.publicIp, key, name, w.NodePlace(name));
    }
  }
}
