/**
 Convergence: in a quiet cluster every reconcile that changes anything brings the operator closer to rest,
 so that every fair run comes to rest, and at rest every resource that can be served is served.
 */
module Convergence {
  import opened Base
  import opened Protocol
  import opened Atomic
  import opened PodResults
  import opened Settling
  import Kube
  import Aws

  // ---- Turns that rewrite the status of one Eip ----

  /** Only the status of one Eip differs, and pods' annotations. */
  ghost predicate Rewrites(s: State, s': State, key: Key) {
    && key in s.kube.eips && s'.kube.eips.Keys == s.kube.eips.Keys
    && (forall other :: other in s.kube.eips && other != key ==> s'.kube.eips[other] == s.kube.eips[other])
    && s'.kube.eips[key].status.Some?
    && s'.kube.eips[key] == s.kube.eips[key].(version := s'.kube.eips[key].version, status := s'.kube.eips[key].status)
    && s'.kube.nodes == s.kube.nodes && s'.kube.pods.Keys == s.kube.pods.Keys && s'.kube.next >= s.kube.next
    && (forall p :: p in s.kube.pods ==>
          s'.kube.pods[p] == s.kube.pods[p].(version := s'.kube.pods[p].version,
                                             annotation := s'.kube.pods[p].annotation))
  }

  /** Only associations differ. */
  predicate Moves(a: Aws.Cloud, a': Aws.Cloud) {
    && a'.addrs.Keys == a.addrs.Keys && a'.next >= a.next
    && forall x :: x in a.addrs ==> a'.addrs[x] == a.addrs[x].(association := a'.addrs[x].association)
  }

  lemma RewriteFits(w: World, s: State, s': State, key: Key)
    requires Fits(w, s.kube) && FlagsSane(s.kube) && Rewrites(s, s', key)
    ensures Fits(w, s'.kube) && FlagsSane(s'.kube)
  {
  }

  lemma RewriteSane(w: World, s: State, s': State, key: Key)
    requires Sane(w, s) && Rewrites(s, s', key) && Moves(s.aws, s'.aws)
    requires StatusSane(s', s'.kube.eips[key]) && IdsSane(s'.aws)
    ensures Sane(w, s')
  {
    hide World.Valid, IdsSane, Fits, FlagsSane;
    RewriteFits(w, s, s', key);
    forall other | other in s'.kube.eips ensures StatusSane(s', s'.kube.eips[other]) {
      assert StatusSane(s, s.kube.eips[other]);
    }
  }

  /** Which objects are being deleted, missing or without a finalizer does not depend on a status. */
  lemma RewriteKeeps(w: World, s: State, s': State, key: Key)
    requires Rewrites(s, s', key)
    ensures Distance(w, s').leaving == Distance(w, s).leaving && Distance(w, s').missing == Distance(w, s).missing
    ensures Distance(w, s').bare == Distance(w, s).bare
  {
    hide ClaimCount, AstrayCount, UntidyCount, Unrecorded;
    assert DeletingPods(s') == DeletingPods(s) && LeavingNodes(w, s') == LeavingNodes(w, s)
           && DeletingEips(s') == DeletingEips(s);
    assert Missing(s') == Missing(s) && BareEips(s') == BareEips(s) && BarePods(s') == BarePods(s);
  }

  /** Recording the address of an Eip that had none. */
  lemma RecordLess(w: World, s: State, s': State, key: Key)
    requires Sane(w, s) && Rewrites(s, s', key)
    requires s.kube.eips[key].AllocationId().None? && s'.kube.eips[key].AllocationId().Some?
    ensures Distance(w, s').Less(Distance(w, s))
  {
    hide Sane, LeavingCount, BareCount, ClaimCount, AstrayCount, UntidyCount, Missing;
    RewriteKeeps(w, s, s', key);
    assert Unrecorded(s') == Unrecorded(s) - {key};
    assert |Unrecorded(s')| < |Unrecorded(s)|;
  }

  lemma SameGoodClaim(w: World, s: State, s': State, e: Eip, e': Eip)
    requires s'.kube.nodes == s.kube.nodes && s'.kube.pods.Keys == s.kube.pods.Keys
    requires e'.ResourceId() == e.ResourceId() && e'.selector == e.selector && e'.key == e.key
    ensures GoodClaim(w, s'.kube, e') == GoodClaim(w, s.kube, e)
  {
  }

  /** Withdrawing a bad claim. */
  lemma WithdrawLess(w: World, s: State, s': State, key: Key)
    requires Sane(w, s) && Rewrites(s, s', key) && s'.kube.eips[key].AllocationId() == s.kube.eips[key].AllocationId()
    requires key in Bad(w, s) && s'.kube.eips[key].ResourceId() == None
    ensures Distance(w, s').Less(Distance(w, s))
  {
    hide GoodClaim, Sane, LeavingCount, BareCount, AstrayCount, UntidyCount, Missing;
    RewriteKeeps(w, s, s', key);
    assert Unrecorded(s') == Unrecorded(s);
    forall other | other in s.kube.eips && other != key
      ensures GoodClaim(w, s'.kube, s'.kube.eips[other]) == GoodClaim(w, s.kube, s.kube.eips[other])
    {
      SameGoodClaim(w, s, s', s.kube.eips[other], s'.kube.eips[other]);
    }
    assert Bad(w, s') == Bad(w, s) - {key} && Unclaimed(s') == Unclaimed(s) + {key};
    assert |Bad(w, s')| == |Bad(w, s)| - 1;
  }

  /** Making a good claim. */
  lemma ClaimLess(w: World, s: State, s': State, key: Key)
    requires Sane(w, s) && Rewrites(s, s', key) && s'.kube.eips[key].AllocationId() == s.kube.eips[key].AllocationId()
    requires key in Unclaimed(s) && GoodClaim(w, s'.kube, s'.kube.eips[key])
    ensures Distance(w, s').Less(Distance(w, s))
  {
    hide GoodClaim, Sane, LeavingCount, BareCount, AstrayCount, UntidyCount, Missing;
    RewriteKeeps(w, s, s', key);
    assert Unrecorded(s') == Unrecorded(s);
    GoodIsClaim(w, s'.kube, s'.kube.eips[key]);
    forall other | other in s.kube.eips && other != key
      ensures GoodClaim(w, s'.kube, s'.kube.eips[other]) == GoodClaim(w, s.kube, s.kube.eips[other])
    {
      SameGoodClaim(w, s, s', s.kube.eips[other], s'.kube.eips[other]);
    }
    assert Bad(w, s') == Bad(w, s) && Unclaimed(s') == Unclaimed(s) - {key};
    assert |Unclaimed(s')| == |Unclaimed(s)| - 1;
  }

  lemma GoodIsClaim(w: World, k: Kube.Store, e: Eip)
    ensures GoodClaim(w, k, e) ==> e.ResourceId().Some?
  {
  }

  /** The claim and the address stay: only the place or the association id is rewritten. */
  ghost predicate Retouches(s: State, s': State, key: Key) {
    && Rewrites(s, s', key) && s.kube.eips[key].status.Some?
    && s'.kube.eips[key].AllocationId() == s.kube.eips[key].AllocationId()
    && s'.kube.eips[key].ResourceId() == s.kube.eips[key].ResourceId()
  }

  lemma RetouchKeeps(w: World, s: State, s': State, key: Key)
    requires Sane(w, s) && Retouches(s, s', key)
    ensures Distance(w, s').leaving == Distance(w, s).leaving && Distance(w, s').missing == Distance(w, s).missing
    ensures Distance(w, s').bare == Distance(w, s).bare && Distance(w, s').unrecorded == Distance(w, s).unrecorded
    ensures Distance(w, s').claims == Distance(w, s).claims
    ensures forall n :: n in w.nodes ==> NodeChoice(w, s', n) == NodeChoice(w, s, n)
    ensures forall other :: PodTarget(w, s', other) <==> PodTarget(w, s, other)
  {
    hide GoodClaim, Sane, LeavingCount, BareCount, AstrayCount, UntidyCount, Missing;
    RewriteKeeps(w, s, s', key);
    assert Unrecorded(s') == Unrecorded(s);
    forall other | other in s.kube.eips
      ensures GoodClaim(w, s'.kube, s'.kube.eips[other]) == GoodClaim(w, s.kube, s.kube.eips[other])
    {
      SameGoodClaim(w, s, s', s.kube.eips[other], s'.kube.eips[other]);
    }
    assert Bad(w, s') == Bad(w, s) && Unclaimed(s') == Unclaimed(s);
    forall n | n in w.nodes ensures NodeChoice(w, s', n) == NodeChoice(w, s, n) {
      ChosenSame(s.kube.eips, s'.kube.eips, NodeKeys(w, s), w.nodes[n]);
    }
    forall other ensures PodTarget(w, s', other) <==> PodTarget(w, s, other) {
      SameTarget(w, s, s', key, other);
    }
  }

  lemma SameTarget(w: World, s: State, s': State, key: Key, other: Key)
    requires Retouches(s, s', key)
    ensures PodTarget(w, s', other) <==> PodTarget(w, s, other)
  {
    if other in s.kube.eips && s.kube.eips[other].selector.PodSelector? {
      var name := s.kube.eips[other].selector.podName;
      assert forall k :: k in s.kube.eips ==> s'.kube.eips[k].selector == s.kube.eips[k].selector;
      assert OnlyMatch(s'.kube, other.ns, name, s'.kube.eips[other]) <==>
          OnlyMatch(s.kube, other.ns, name, s.kube.eips[other]);
    }
  }

  // ---- Turns that move an address ----

  /** The address is brought to the place; whatever was there is displaced, and nothing else moves. */
  ghost predicate Brings(a: Aws.Cloud, a': Aws.Cloud, x: nat, place: (string, string)) {
    && Moves(a, a') && x in a.addrs && a'.addrs[x].At(place.0, place.1)
    && forall y, p: (string, string) :: y in a.addrs && y != x && p != place && a.addrs[y].At(p.0, p.1) ==>
        a'.addrs[y].At(p.0, p.1)
  }

  lemma AssociateBrings(a: Aws.Cloud, x: nat, eni: string, ip: string)
    requires x in a.addrs
    ensures Brings(a, Aws.Associate(a, x, eni, ip), x, (eni, ip))
  {
  }

  /** An Eip at another place than the one its address is brought to stays there. */
  lemma StaysPut(w: World, s: State, s': State, key: Key, other: Key, x: nat, place: (string, string),
                 p: (string, string))
    requires Sane(w, s) && Retouches(s, s', key) && s.kube.eips[key].AllocationId() == Some(x)
    requires Brings(s.aws, s'.aws, x, place)
    requires other in s.kube.eips && other != key && p != place && Sits(s, s.kube.eips[other], p)
    ensures Sits(s', s'.kube.eips[other], p)
  {
    assert StatusSane(s, s.kube.eips[other]) && StatusSane(s, s.kube.eips[key]);
  }

  lemma BroughtSits(s: State, s': State, key: Key, place: (string, string))
    requires Retouches(s, s', key) && s.kube.eips[key].AllocationId().Some?
    requires Brings(s.aws, s'.aws, s.kube.eips[key].AllocationId().value, place)
    ensures Sits(s', s'.kube.eips[key], place)
  {
  }

  lemma TargetIsPods(w: World, s: State, key: Key)
    ensures PodTarget(w, s, key) ==>
              key in s.kube.eips && s.kube.eips[key].selector.PodSelector? && w.PodServing(PodOf(s.kube.eips[key]))
  {
  }

  lemma SameAllocations(s: State, s': State, key: Key)
    requires Retouches(s, s', key)
    ensures s'.kube.eips.Keys == s.kube.eips.Keys
    ensures forall k :: k in s.kube.eips ==> s'.kube.eips[k].AllocationId() == s.kube.eips[k].AllocationId()
    ensures forall k :: k in s.kube.eips ==>
              s'.kube.eips[k].selector == s.kube.eips[k].selector && s'.kube.eips[k].key == s.kube.eips[k].key
  {
  }

  lemma Keys(w: World, s: State)
    requires Sane(w, s)
    ensures w.DistinctPlaces() && Keyed(s.kube)
    ensures forall n :: n in w.nodes ==> w.nodes[n].name == n
  {
  }

  lemma OthersStayPut(w: World, s: State, s': State, key: Key, x: nat, place: (string, string))
    requires Sane(w, s) && Retouches(s, s', key) && s.kube.eips[key].AllocationId() == Some(x)
    requires Brings(s.aws, s'.aws, x, place)
    ensures forall n :: NodeAstray(w, s', n) && w.NodePlace(n) != place && NodeChoice(w, s, n) != Some(key) ==>
              NodeAstray(w, s, n)
    ensures forall other ::
              PodAstray(w, s', other) && other != key && w.PodPlace(PodOf(s.kube.eips[other])) != place ==>
                PodAstray(w, s, other)
  {
    hide Sane, GoodClaim, OnlyMatch, Retouches, NodeChoice, Brings, Sits;
    RetouchKeeps(w, s, s', key);
    SameAllocations(s, s', key);
    forall n | NodeAstray(w, s', n) && w.NodePlace(n) != place && NodeChoice(w, s, n) != Some(key)
      ensures NodeAstray(w, s, n)
    {
      if Sits(s, s.kube.eips[NodeChoice(w, s, n).value], w.NodePlace(n)) {
        StaysPut(w, s, s', key, NodeChoice(w, s, n).value, x, place, w.NodePlace(n));
      }
    }
    forall other | PodAstray(w, s', other) && other != key && w.PodPlace(PodOf(s.kube.eips[other])) != place
      ensures PodAstray(w, s, other)
    {
      assert PodTarget(w, s, other);
      TargetIsPods(w, s, other);
      if Sits(s, s.kube.eips[other], w.PodPlace(PodOf(s.kube.eips[other]))) {
        StaysPut(w, s, s', key, other, x, place, w.PodPlace(PodOf(s.kube.eips[other])));
      }
    }
  }

  lemma NodeMoveLess(w: World, s: State, s': State, key: Key, n: string)
    requires Sane(w, s) && Retouches(s, s', key) && n in w.nodes && NodeAstray(w, s, n)
    requires NodeChoice(w, s, n) == Some(key)
    requires s.kube.eips[key].ResourceId() == Some(n)
    requires Brings(s.aws, s'.aws, s.kube.eips[key].AllocationId().value, w.NodePlace(n))
    ensures Distance(w, s').Less(Distance(w, s))
  {
    hide Sane, GoodClaim, PodTarget, Sits, Retouches, Brings, NodeChoice, Missing, Unrecorded, LeavingCount,
         BareCount, ClaimCount, UntidyCount;
    RetouchKeeps(w, s, s', key);
    Keys(w, s);
    SameAllocations(s, s', key);
    OthersStayPut(w, s, s', key, s.kube.eips[key].AllocationId().value, w.NodePlace(n));
    BroughtSits(s, s', key, w.NodePlace(n));
    forall other | other in NodesAstray(w, s') ensures other in NodesAstray(w, s) - {n} {
      assert other != n ==> NodeChoice(w, s, other) != Some(key);
    }
    forall other | other in PodsAstray(w, s') ensures other in PodsAstray(w, s) {
      TargetIsPods(w, s, other);
    }
    Fewer(NodesAstray(w, s'), NodesAstray(w, s) - {n});
    Fewer(PodsAstray(w, s'), PodsAstray(w, s));
    assert n in NodesAstray(w, s);
  }

  lemma PodMoveLess(w: World, s: State, s': State, key: Key)
    requires Sane(w, s) && Retouches(s, s', key) && PodAstray(w, s, key)
    requires Brings(s.aws, s'.aws, s.kube.eips[key].AllocationId().value, w.PodPlace(PodOf(s.kube.eips[key])))
    ensures Distance(w, s').Less(Distance(w, s))
  {
    hide Sane, GoodClaim, Sits, Retouches, Brings, NodeChoice, OnlyMatch, Missing, Unrecorded, LeavingCount,
         BareCount, ClaimCount, UntidyCount;
    var place := w.PodPlace(PodOf(s.kube.eips[key]));
    Keys(w, s);
    SameAllocations(s, s', key);
    RetouchKeeps(w, s, s', key);
    OthersStayPut(w, s, s', key, s.kube.eips[key].AllocationId().value, place);
    BroughtSits(s, s', key, place);
    forall n | n in NodesAstray(w, s') ensures n in NodesAstray(w, s) {
      assert w.NodePlace(n) != place;
    }
    forall other | other in PodsAstray(w, s') ensures other in PodsAstray(w, s) - {key} {
      if other != key {
        OneTarget(w, s, key, other);
      }
    }
    Fewer(NodesAstray(w, s'), NodesAstray(w, s));
    Fewer(PodsAstray(w, s'), PodsAstray(w, s) - {key});
    assert key in PodsAstray(w, s);
  }

  /** A pod takes one Eip only. */
  lemma OneTarget(w: World, s: State, key: Key, other: Key)
    requires Keyed(s.kube) && PodTarget(w, s, key) && PodTarget(w, s, other) && key != other
    ensures PodOf(s.kube.eips[key]) != PodOf(s.kube.eips[other])
  {
  }

  lemma Fewer<T>(a: set<T>, b: set<T>)
    requires a <= b
    ensures |a| <= |b|
  {
    assert b == a + (b - a);
  }

  // ---- Turns that tidy up ----

  lemma SameAstray(w: World, s: State, s': State, key: Key)
    requires Sane(w, s) && Retouches(s, s', key) && s'.aws == s.aws
    ensures NodesAstray(w, s') == NodesAstray(w, s) && PodsAstray(w, s') == PodsAstray(w, s)
  {
    hide Sane, GoodClaim, PodTarget, Retouches, NodeChoice;
    RetouchKeeps(w, s, s', key);
    SameAllocations(s, s', key);
    forall n | n in w.nodes ensures NodeAstray(w, s', n) <==> NodeAstray(w, s, n) {
    }
    forall other | other in s.kube.eips ensures PodAstray(w, s', other) <==> PodAstray(w, s, other) {
      assert PodTarget(w, s', other) <==> PodTarget(w, s, other);
      TargetIsPods(w, s, other);
    }
  }

  /** Nothing about an Eip's pod changes by rewriting another Eip, or another pod's annotation. */
  lemma SameSync(w: World, s: State, s': State, key: Key, other: Key)
    requires Sane(w, s) && Retouches(s, s', key) && s'.aws == s.aws && other in s.kube.eips
    requires s.kube.eips[key].selector.NodeSelector? || (other != key && PodTarget(w, s, key))
    requires forall p ::
               p in s.kube.pods && (s.kube.eips[key].selector.PodSelector? ==> p != PodOf(s.kube.eips[key])) ==>
                 s'.kube.pods[p] == s.kube.pods[p]
    ensures OutOfSync(w, s', other) <==> OutOfSync(w, s, other)
  {
    SameTarget(w, s, s', key, other);
    if PodTarget(w, s, other) && PodTarget(w, s, key) {
      OneTarget(w, s, key, other);
    }
  }

  lemma CleanLess(w: World, s: State, s': State, key: Key)
    requires Sane(w, s) && Retouches(s, s', key) && s'.aws == s.aws && s'.kube.pods == s.kube.pods
    requires s.kube.eips[key].selector.NodeSelector? && IsDirty(s.kube.eips[key]) && !IsDirty(s'.kube.eips[key])
    ensures Distance(w, s').Less(Distance(w, s))
  {
    hide Sane, GoodClaim, NodesAstray, PodsAstray, Missing, Unrecorded, LeavingCount, BareCount, ClaimCount, OutOfSync;
    RetouchKeeps(w, s, s', key);
    SameAstray(w, s, s', key);
    assert Dirty(s') == Dirty(s) - {key};
    assert |Dirty(s')| == |Dirty(s)| - 1;
    assert PodsOutOfSync(w, s') == PodsOutOfSync(w, s) by {
      forall other | other in s.kube.eips ensures OutOfSync(w, s', other) <==> OutOfSync(w, s, other) {
        SameSync(w, s, s', key, other);
      }
    }
  }

  lemma OutOfSyncIsTarget(w: World, s: State, key: Key)
    requires OutOfSync(w, s, key)
    ensures PodTarget(w, s, key)
  {
  }

  lemma SyncLess(w: World, s: State, s': State, key: Key)
    requires Sane(w, s) && Retouches(s, s', key) && s'.aws == s.aws
    requires OutOfSync(w, s, key) && !OutOfSync(w, s', key) && s.kube.eips[key].ResourceId().Some?
    requires forall p :: p in s.kube.pods && p != PodOf(s.kube.eips[key]) ==> s'.kube.pods[p] == s.kube.pods[p]
    ensures Distance(w, s').Less(Distance(w, s))
  {
    hide Sane, GoodClaim, NodesAstray, PodsAstray, Missing, Unrecorded, LeavingCount, BareCount, ClaimCount, OutOfSync;
    RetouchKeeps(w, s, s', key);
    SameAstray(w, s, s', key);
    assert Dirty(s') == Dirty(s);
    OutOfSyncIsTarget(w, s, key);
    forall other | other in s.kube.eips && other != key ensures OutOfSync(w, s', other) <==> OutOfSync(w, s, other) {
      SameSync(w, s, s', key, other);
    }
    assert PodsOutOfSync(w, s') == PodsOutOfSync(w, s) - {key};
    assert |PodsOutOfSync(w, s')| == |PodsOutOfSync(w, s)| - 1;
  }
}
