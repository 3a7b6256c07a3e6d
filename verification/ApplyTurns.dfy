/**
 Each apply keeps the state sane, and changes nothing or brings it closer to rest.

 For each of the three kinds of apply there is one lemma named `...ApplyProgress`. The cases are those of the
 code: an Eip gets its address recorded or loses a claim that does not fit, a node lets its first choice go or
 brings it to itself, a pod gets its Eip made, claims it, moves its address or is brought up to date. Each case
 rewrites the status of one Eip and moves at most one address, and is one of the cases in which the measure goes
 down; what is left of the lemmas here says what the calls of that case rewrite and move.
 */
module ApplyTurns {
  import opened Base
  import opened Protocol
  import opened Atomic
  import opened PodResults
  import opened Settling
  import opened Convergence
  import opened Detaching
  import Invariants
  import Kube
  import Aws

  ghost predicate Progress(w: World, s: State, s': State) {
    Sane(w, s') && (s' == s || Distance(w, s').Less(Distance(w, s)))
  }

  lemma StatusRewrites(s: State, s': State, key: Key, status: Status)
    requires OnlyStatus(s.kube, s'.kube, key, status)
    ensures Rewrites(s, s', key)
  {
  }

  /** Detaching is a write of the cleared status. */
  lemma DetachDoes(s: State, e: Eip)
    requires e.status.Some? && e.key in s.kube.eips && s.kube.eips[e.key] == e
    ensures Kube.SetStatusDetached(s.kube, e).Ok?
    ensures OnlyStatus(s.kube, Detach(s, e).kube, e.key, Kube.Cleared(e.status.value)) && Detach(s, e).aws == s.aws
    ensures e.status == Some(Kube.Cleared(e.status.value)) ==> Detach(s, e) == s
  {
    WriteDoes(s.kube, e.key, Kube.Cleared(e.status.value));
  }

  // ---- Eip turns ----

  lemma DisassociateMoves(a: Aws.Cloud, id: nat)
    ensures Moves(a, Aws.Disassociate(a, id)) && (IdsSane(a) ==> IdsSane(Aws.Disassociate(a, id)))
  {
  }

  lemma SaneIds(w: World, s: State)
    requires Sane(w, s)
    ensures IdsSane(s.aws) && Keyed(s.kube)
  {
  }

  lemma WithdrawProgress(w: World, s: State, s': State, e: Eip)
    requires Sane(w, s) && e.key in Bad(w, s) && s.kube.eips[e.key] == e
    requires OnlyStatus(s.kube, s'.kube, e.key, Kube.Cleared(e.status.value))
    requires Moves(s.aws, s'.aws) && IdsSane(s'.aws)
    ensures Progress(w, s, s') && s' != s
  {
    hide Distance, Unclaimed, IdsSane;
    StatusRewrites(s, s', e.key, Kube.Cleared(e.status.value));
    assert StatusSane(s, e);
    assert StatusSane(s', s'.kube.eips[e.key]);
    RewriteSane(w, s, s', e.key);
    WithdrawLess(w, s, s', e.key);
  }

  lemma CheckProgress(w: World, s: State, e: Eip)
    requires Sane(w, s) && e.key in s.kube.eips && s.kube.eips[e.key] == e
    ensures Progress(w, s, Checked(s, e))
  {
    hide Sane, Distance, OnlyStatus, Moves, IdsSane;
    SaneIds(w, s);
    if e.ResourceId().Some? && e.ResourceId().value !in Kube.Resources(s.kube, e) {
      DetachDoes(s, e);
      if e.AssociationId().Some? {
        DisassociateMoves(s.aws, e.AssociationId().value);
      }
      NoMoves(s.aws);
      WithdrawProgress(w, s, Checked(s, e), e);
    }
  }

  lemma NoMoves(a: Aws.Cloud)
    ensures Moves(a, a)
  {
  }

  /** The one address tagged with the Eip's uid is the recorded one. */
  lemma FoundIsRecorded(w: World, s: State, e: Eip, found: seq<nat>)
    requires Sane(w, s) && e.key in s.kube.eips && s.kube.eips[e.key] == e && Aws.Tagged(s.aws, e.uid, found)
    ensures |found| <= 1
    ensures e.AllocationId().Some? && !e.deleting ==> found == [e.AllocationId().value]
  {
    hide Sane;
    if |found| > 1 {
      OneTagged(w, s, found[0], found[1]);
    }
    if e.AllocationId().Some? && !e.deleting {
      RecordedIsTagged(w, s, e);
      assert e.AllocationId().value in found;
    }
  }

  lemma OneTagged(w: World, s: State, x: nat, y: nat)
    requires Sane(w, s) && x in s.aws.addrs && y in s.aws.addrs && s.aws.addrs[x].uid == s.aws.addrs[y].uid
    ensures x == y
  {
  }

  lemma RecordedIsTagged(w: World, s: State, e: Eip)
    requires Sane(w, s) && e.key in s.kube.eips && s.kube.eips[e.key] == e && e.AllocationId().Some? && !e.deleting
    ensures e.AllocationId().value in s.aws.addrs && s.aws.addrs[e.AllocationId().value].uid == e.uid
  {
    assert StatusSane(s, e);
  }

  lemma AlreadyRecorded(w: World, s: State, e: Eip, found: seq<nat>, publicIp: string)
    requires Sane(w, s) && e.key in s.kube.eips && s.kube.eips[e.key] == e && Aws.Tagged(s.aws, e.uid, found)
    requires e.AllocationId().Some? && !e.deleting
    ensures |found| <= 1 && Allocated(s, e, found, publicIp) == s
  {
    FoundIsRecorded(w, s, e, found);
    assert StatusSane(s, e);
    assert e.status.value == e.status.value.(allocationId := e.AllocationId(), publicIp := e.status.value.publicIp);
  }

  lemma RecordDoes(w: World, s: State, e: Eip, found: seq<nat>, publicIp: string)
    requires Sane(w, s) && e.key in s.kube.eips && s.kube.eips[e.key] == e && Aws.Tagged(s.aws, e.uid, found)
    requires |found| <= 1
    ensures var alloc := if found == [] then s.aws.next else found[0];
            var ip := if found == [] then publicIp else s.aws.addrs[alloc].publicIp;
            var s' := Allocated(s, e, found, publicIp);
            && OnlyStatus(s.kube, s'.kube, e.key,
                          Kube.CurrentStatus(s.kube, e.key).(allocationId := Some(alloc), publicIp := Some(ip)))
            && s'.aws == if found == [] then Aws.Allocate(s.aws, e.uid, e.key.ns, publicIp) else s.aws
  {
    hide Sane;
    var alloc := if found == [] then s.aws.next else found[0];
    var ip := if found == [] then publicIp else s.aws.addrs[alloc].publicIp;
    WriteDoes(s.kube, e.key, Kube.CurrentStatus(s.kube, e.key).(allocationId := Some(alloc), publicIp := Some(ip)));
  }

  lemma RecordSane(w: World, s: State, s': State, e: Eip, alloc: nat, ip: string)
    requires Sane(w, s) && e.key in s.kube.eips && s.kube.eips[e.key] == e && e.ResourceId().None?
    requires OnlyStatus(s.kube, s'.kube, e.key,
                        Kube.CurrentStatus(s.kube, e.key).(allocationId := Some(alloc), publicIp := Some(ip)))
    requires s'.aws == s.aws || (s'.aws == Aws.Allocate(s.aws, e.uid, e.key.ns, ip) && alloc == s.aws.next
                                 && forall x :: x in s.aws.addrs ==> s.aws.addrs[x].uid != e.uid)
    requires alloc in s'.aws.addrs && s'.aws.addrs[alloc].uid == e.uid && s'.aws.addrs[alloc].publicIp == ip
    ensures Sane(w, s')
  {
    hide World.Valid, StatusSane, IdsSane, Fits, FlagsSane;
    RecordKeeps(w, s, s', e);
    forall key | key in s'.kube.eips ensures StatusSane(s', s'.kube.eips[key]) {
      RecordStatusSane(w, s, s', e, alloc, ip, key);
    }
  }

  lemma RecordKeeps(w: World, s: State, s': State, e: Eip)
    requires Fits(w, s.kube) && FlagsSane(s.kube) && IdsSane(s.aws) && e.key in s.kube.eips
    requires s'.kube.eips.Keys == s.kube.eips.Keys && s'.kube.pods == s.kube.pods && s'.kube.nodes == s.kube.nodes
    requires forall key :: key in s.kube.eips ==>
               s'.kube.eips[key].deleting == s.kube.eips[key].deleting
                   && s'.kube.eips[key].finalizer == s.kube.eips[key].finalizer
    requires s'.aws == s.aws || exists ip :: s'.aws == Aws.Allocate(s.aws, e.uid, e.key.ns, ip)
    ensures Fits(w, s'.kube) && FlagsSane(s'.kube) && IdsSane(s'.aws)
  {
  }

  lemma RecordStatusSane(w: World, s: State, s': State, e: Eip, alloc: nat, ip: string, key: Key)
    requires Sane(w, s) && e.key in s.kube.eips && s.kube.eips[e.key] == e && e.ResourceId().None? && key in s.kube.eips
    requires OnlyStatus(s.kube, s'.kube, e.key,
                        Kube.CurrentStatus(s.kube, e.key).(allocationId := Some(alloc), publicIp := Some(ip)))
    requires forall x :: x in s.aws.addrs ==> x in s'.aws.addrs && s'.aws.addrs[x] == s.aws.addrs[x]
    requires forall x :: x in s'.aws.addrs && x < s.aws.next ==> x in s.aws.addrs
    requires s.aws.next <= s'.aws.next && alloc < s'.aws.next
    requires alloc in s'.aws.addrs && s'.aws.addrs[alloc].uid == e.uid && s'.aws.addrs[alloc].publicIp == ip
    ensures StatusSane(s', s'.kube.eips[key])
  {
    assert StatusSane(s, s.kube.eips[key]);
  }

  lemma RecordProgress(w: World, s: State, e: Eip, found: seq<nat>, publicIp: string)
    requires Sane(w, s) && e.key in s.kube.eips && s.kube.eips[e.key] == e && Aws.Tagged(s.aws, e.uid, found)
    requires e.AllocationId().None?
    ensures |found| <= 1 && e.ResourceId().None?
    ensures Progress(w, s, Allocated(s, e, found, publicIp))
  {
    hide Distance, Allocated;
    FoundIsRecorded(w, s, e, found);
    RecordDoes(w, s, e, found, publicIp);
    assert StatusSane(s, e);
    var s' := Allocated(s, e, found, publicIp);
    var alloc := if found == [] then s.aws.next else found[0];
    var ip := if found == [] then publicIp else s.aws.addrs[alloc].publicIp;
    RecordSane(w, s, s', e, alloc, ip);
    StatusRewrites(s, s', e.key, Kube.CurrentStatus(s.kube, e.key).(allocationId := Some(alloc), publicIp := Some(ip)));
    RecordLess(w, s, s', e.key);
  }

  lemma ApplyProgress(w: World, s: State, e: Eip, found: seq<nat>, publicIp: string)
    requires Sane(w, s) && e.key in s.kube.eips && s.kube.eips[e.key] == e && !e.deleting
    requires Aws.Tagged(s.aws, e.uid, found)
    ensures Progress(w, s, EipApplied(s, e, found, publicIp))
  {
    hide Distance, Allocated, Checked, Progress, Sane;
    if e.AllocationId().None? {
      RecordProgress(w, s, e, found, publicIp);
      NothingToCheck(Allocated(s, e, found, publicIp), e);
    } else {
      AlreadyRecorded(w, s, e, found, publicIp);
      CheckProgress(w, s, e);
    }
  }

  lemma CurrentKey(w: World, s: State, key: Key)
    requires Sane(w, s) && key in s.kube.eips
    ensures s.kube.eips[key].key == key
  {
  }

  lemma NothingToCheck(s: State, e: Eip)
    requires e.ResourceId().None?
    ensures Checked(s, e) == s
  {
  }

  // ---- Node turns ----

  lemma NodeSelects(w: World, s: State, name: string)
    requires Sane(w, s) && name in w.nodes
    ensures var keys := Listing(s.kube.eips.Keys, w.order, w.ns);
            && keys == NodeKeys(w, s)
            && Kube.FirstFree(MatchingNode(s.kube.eips, keys, w.nodes[name].labels), w.nodes[name].name)
                 == if NodeChoice(w, s, name).Some? then Some(s.kube.eips[NodeChoice(w, s, name).value]) else None
  {
    var n := w.nodes[name];
    ChosenIsFirstFree(s.kube.eips, NodeKeys(w, s), n, (e: Eip) => e.MatchesNode(n.labels));
  }

  /** A node that is not ready withdraws its claim or cleans up an unclaimed Eip. */
  lemma NotReadyProgress(w: World, s: State, name: string, key: Key)
    requires Sane(w, s) && name in w.nodes && NodeChoice(w, s, name) == Some(key) && s.kube.eips[key].key == key
    requires w.nodes[name].ready != Some("True") && w.nodes[name].name == name
    ensures Progress(w, s, Detach(s, s.kube.eips[key]))
  {
    hide Distance, Sane, Detach, NodeChoice, IdsSane;
    SaneIds(w, s);
    var e := s.kube.eips[key];
    var s' := Detach(s, e);
    DetachDoes(s, e);
    NoMoves(s.aws);
    if e.ResourceId().Some? {
      assert !GoodClaim(w, s.kube, e);
      WithdrawProgress(w, s, s', e);
    } else if e.status != Some(Kube.Cleared(e.status.value)) {
      StatusRewrites(s, s', key, Kube.Cleared(e.status.value));
      ClearedSane(w, s, s', key);
      CleanLess(w, s, s', key);
    }
  }

  lemma ClearedSane(w: World, s: State, s': State, key: Key)
    requires Sane(w, s) && Rewrites(s, s', key) && s.kube.eips[key].status.Some? && Moves(s.aws, s'.aws)
    requires IdsSane(s'.aws)
    requires s'.kube.eips[key].status == Some(Kube.Cleared(s.kube.eips[key].status.value))
    ensures Sane(w, s')
  {
    hide IdsSane;
    assert StatusSane(s, s.kube.eips[key]);
    RewriteSane(w, s, s', key);
  }

  /** A claim by what the Eip selects keeps the state sane. */
  lemma ClaimedSane(w: World, s: State, s': State, key: Key, resource: string)
    requires Sane(w, s) && Rewrites(s, s', key) && s.kube.eips[key].AllocationId().Some? && Moves(s.aws, s'.aws)
    requires IdsSane(s'.aws)
    requires s'.kube.eips[key].AllocationId() == s.kube.eips[key].AllocationId()
    requires s'.kube.eips[key].status.value.publicIp == s.kube.eips[key].status.value.publicIp
    requires s'.kube.eips[key].ResourceId() == Some(resource)
    requires s.kube.eips[key].selector.PodSelector? ==> s.kube.eips[key].selector.podName == resource
    ensures Sane(w, s')
  {
    hide IdsSane;
    assert StatusSane(s, s.kube.eips[key]);
    RewriteSane(w, s, s', key);
  }

  lemma NodePlaceProgress(w: World, s: State, name: string, key: Key)
    requires Sane(w, s) && w.Serving(name) && NodeChoice(w, s, name) == Some(key) && s.kube.eips[key].key == key
    requires w.nodes[name].name == name && s.kube.eips[key].AllocationId().Some?
    requires name in s.kube.nodes && s.kube.nodes[name] == w.nodes[name]
    requires s.kube.eips[key].AllocationId().value in s.aws.addrs && !Sits(s, s.kube.eips[key], w.NodePlace(name))
    ensures Progress(w, s, Place(s, s.kube.eips[key], name, w.enis[name], w.nodes[name].ip.value))
  {
    hide Distance, Sane, Place, NodeChoice, IdsSane;
    SaneIds(w, s);
    AssociateIds(s.aws, s.kube.eips[key].AllocationId().value, w.enis[name], w.nodes[name].ip.value);
    var e := s.kube.eips[key];
    var s' := Place(s, e, name, w.enis[name], w.nodes[name].ip.value);
    PlaceDoes(s, e, name, w.enis[name], w.nodes[name].ip.value);
    PlaceMoves(s, e, name, w.enis[name], w.nodes[name].ip.value);
    StatusRewrites(s, s', key, s'.kube.eips[key].status.value);
    ClaimedSane(w, s, s', key, name);
    if e.ResourceId().None? {
      assert GoodClaim(w, s'.kube, s'.kube.eips[key]);
      ClaimLess(w, s, s', key);
    } else {
      assert NodeAstray(w, s, name);
      NodeMoveLess(w, s, s', key, name);
    }
  }

  lemma PlaceMoves(s: State, e: Eip, resource: string, eni: string, ip: string)
    requires e.status.Some? && e.key in s.kube.eips && s.kube.eips[e.key] == e
    requires e.AllocationId().Some? && e.AllocationId().value in s.aws.addrs
    ensures Place(s, e, resource, eni, ip).aws == Aws.Associate(s.aws, e.AllocationId().value, eni, ip)
    ensures Brings(s.aws, Place(s, e, resource, eni, ip).aws, e.AllocationId().value, (eni, ip))
  {
    AssociateBrings(s.aws, e.AllocationId().value, eni, ip);
  }

  lemma AssociateIds(a: Aws.Cloud, x: nat, eni: string, ip: string)
    requires IdsSane(a) && x in a.addrs
    ensures IdsSane(Aws.Associate(a, x, eni, ip))
  {
  }

  /** What holds of a node that is there. */
  lemma NodeIs(w: World, s: State, name: string)
    requires Sane(w, s) && name in s.kube.nodes
    ensures name in w.nodes && s.kube.nodes[name] == w.nodes[name] && w.nodes[name].name == name
  {
  }

  lemma NodeApplyProgress(w: World, s: State, name: string)
    requires Sane(w, s) && name in s.kube.nodes && name !in w.leaving && name in w.nodes
    ensures Progress(w, s, NodeApplied(s, w.nodes[name], NodeKeys(w, s), w.NodeEni(name)))
  {
    hide Distance, Place, Detach, NodeChoice, Progress, Kube.FirstFree, MatchingNode, NodeKeys, Sane;
    NodeSelects(w, s, name);
    NodeIs(w, s, name);
    Idle(w, s);
    var n := w.nodes[name];
    var choice := NodeChoice(w, s, name);
    if choice.Some? && UsableNode(n) && n.ready.Some? {
      var e := s.kube.eips[choice.value];
      CurrentKey(w, s, choice.value);
      if n.ready.value != "True" {
        NotReadyProgress(w, s, name, choice.value);
      } else if e.AllocationId().Some? && e.AllocationId().value in s.aws.addrs && name in w.enis {
        if !Sits(s, e, w.NodePlace(name)) {
          NodePlaceProgress(w, s, name, choice.value);
        }
      }
    }
  }

  lemma Idle(w: World, s: State)
    requires Sane(w, s)
    ensures Progress(w, s, s)
  {
  }

  // ---- Pod applies ----

  /** The Eip made for a pod gets a uid and a key that nothing has yet. */
  lemma CreateSane(w: World, s: State, key: Key)
    requires Sane(w, s) && key in w.pods && key !in s.kube.eips
    ensures Sane(w, s.(kube := Kube.CreateEip(s.kube, key, PodSelector(key.name))))
  {
    hide World.Valid, IdsSane, Fits, FlagsSane;
    var s' := s.(kube := Kube.CreateEip(s.kube, key, PodSelector(key.name)));
    InOrder(w, key);
    CreateFits(w, s.kube, key);
    forall other | other in s'.kube.eips ensures StatusSane(s', s'.kube.eips[other]) {
      if other != key {
        assert StatusSane(s, s.kube.eips[other]);
      }
    }
  }

  lemma CreateFits(w: World, k: Kube.Store, key: Key)
    requires Fits(w, k) && FlagsSane(k) && key in w.order && key !in k.eips
    ensures Fits(w, Kube.CreateEip(k, key, PodSelector(key.name)))
    ensures FlagsSane(Kube.CreateEip(k, key, PodSelector(key.name)))
  {
  }

  lemma CreateProgress(w: World, s: State, key: Key)
    requires Sane(w, s) && key in s.kube.pods && key in w.pods && s.kube.pods[key].autocreate
    requires !s.kube.pods[key].deleting
    requires key !in s.kube.eips
    ensures var s' := s.(kube := Kube.CreateEip(s.kube, key, PodSelector(key.name)));
            Progress(w, s, s') && s' != s
  {
    hide Sane, BareCount, Unrecorded, ClaimCount, AstrayCount, UntidyCount;
    var s' := s.(kube := Kube.CreateEip(s.kube, key, PodSelector(key.name)));
    CreateSane(w, s, key);
    assert DeletingPods(s') == DeletingPods(s) && LeavingNodes(w, s') == LeavingNodes(w, s)
           && DeletingEips(s') == DeletingEips(s);
    assert Missing(s') == Missing(s) - {key};
    assert |Missing(s')| == |Missing(s)| - 1;
  }

  lemma InOrder(w: World, key: Key)
    requires w.Valid() && key in w.pods
    ensures key in w.order
  {
  }

  /** What a pod's claim and annotation rewrite and move. */
  lemma TookDoes(s: State, p: Pod, e: Eip, eni: string)
    requires p.ip.Some? && e.AllocationId().Some? && e.key in s.kube.eips && s.kube.eips[e.key] == e
    requires e.AllocationId().value in s.aws.addrs && p.key in s.kube.pods && s.kube.pods[p.key].key == p.key
    ensures var s', x := PodTook(s, p, e, eni), e.AllocationId().value;
            && Rewrites(s, s', e.key) && Served(s', p, e.key, eni)
            && s'.kube.eips[e.key].AllocationId() == e.AllocationId()
            && s'.kube.eips[e.key].status.value.publicIp == e.status.value.publicIp
            && (forall q :: q in s.kube.pods && q != p.key ==> s'.kube.pods[q] == s.kube.pods[q])
            && (if s.aws.addrs[x].At(eni, p.ip.value) then s'.aws == s.aws
                else Brings(s.aws, s'.aws, x, (eni, p.ip.value)))
  {
    hide Place, WithClaim, Annotated, Served, Rewrites, Brings, OnlyStatus;
    var address := s.aws.addrs[e.AllocationId().value];
    var s1 := BeforeAnnotation(s, p, e, eni);
    BeforeAnnotationDoes(s, p, e, eni);
    KeepsPods(s, s1, e.key);
    AnnotateDoes(s1, p, Annotation(e.AllocationId().value, address.publicIp));
    RewritesOn(s, s1, PodTook(s, p, e, eni), e.key);
    TakingServes(s, p, e, eni);
  }

  /** The part before the annotation. */
  function BeforeAnnotation(s: State, p: Pod, e: Eip, eni: string): State
    requires p.ip.Some? && e.AllocationId().Some? && e.key in s.kube.eips && s.kube.eips[e.key] == e
    requires e.AllocationId().value in s.aws.addrs
  {
    if s.aws.addrs[e.AllocationId().value].At(eni, p.ip.value) then WithClaim(s, e, p.key.name, eni, p.ip.value)
    else Place(s, e, p.key.name, eni, p.ip.value)
  }

  lemma BeforeAnnotationDoes(s: State, p: Pod, e: Eip, eni: string)
    requires p.ip.Some? && e.AllocationId().Some? && e.key in s.kube.eips && s.kube.eips[e.key] == e
    requires e.AllocationId().value in s.aws.addrs
    ensures var s1, x := BeforeAnnotation(s, p, e, eni), e.AllocationId().value;
            && Rewrites(s, s1, e.key) && s1.kube.pods == s.kube.pods
            && s1.kube.eips[e.key].AllocationId() == e.AllocationId()
            && s1.kube.eips[e.key].status.value.publicIp == e.status.value.publicIp
            && (if s.aws.addrs[x].At(eni, p.ip.value) then s1.aws == s.aws
                else Brings(s.aws, s1.aws, x, (eni, p.ip.value)))
  {
    hide Place, WithClaim, Brings;
    PlaceDoes(s, e, p.key.name, eni, p.ip.value);
    PlaceMoves(s, e, p.key.name, eni, p.ip.value);
    StatusRewrites(s, BeforeAnnotation(s, p, e, eni), e.key,
                   BeforeAnnotation(s, p, e, eni).kube.eips[e.key].status.value);
    ClaimKeepsAws(s, e, p.key.name, eni, p.ip.value);
  }

  lemma RewritesOn(s: State, s1: State, s': State, key: Key)
    requires Rewrites(s, s1, key) && s1.kube.pods == s.kube.pods && s'.kube.eips == s1.kube.eips
    requires s'.kube.nodes == s1.kube.nodes
    requires s'.kube.next >= s1.kube.next && s'.kube.pods.Keys == s1.kube.pods.Keys
    requires forall p :: p in s1.kube.pods ==>
               s'.kube.pods[p] == s1.kube.pods[p].(version := s'.kube.pods[p].version,
                                                   annotation := s'.kube.pods[p].annotation)
    ensures Rewrites(s, s', key)
  {
  }

  lemma ClaimKeepsAws(s: State, e: Eip, resource: string, eni: string, ip: string)
    requires e.status.Some? && e.key in s.kube.eips && s.kube.eips[e.key] == e
    ensures WithClaim(s, e, resource, eni, ip).aws == s.aws
  {
  }

  lemma AnnotateDoes(s: State, p: Pod, a: Annotation)
    requires p.key in s.kube.pods && s.kube.pods[p.key].key == p.key
    ensures var s' := Annotated(s, p, a);
            && s'.aws == s.aws && s'.kube.eips == s.kube.eips && s'.kube.nodes == s.kube.nodes
            && s'.kube.next >= s.kube.next
            && s'.kube.pods.Keys == s.kube.pods.Keys
            && (forall q :: q in s.kube.pods && q != p.key ==> s'.kube.pods[q] == s.kube.pods[q])
            && s'.kube.pods[p.key] == s.kube.pods[p.key].(version := s'.kube.pods[p.key].version, annotation := Some(a))
  {
  }

  ghost predicate Takes(w: World, s: State, p: Pod, e: Eip) {
    && p.key in s.kube.pods && s.kube.pods[p.key] == p && w.PodServing(p.key) && p.ip == w.pods[p.key].ip
    && e.key in s.kube.eips && s.kube.eips[e.key] == e && e.selector == PodSelector(p.key.name) && e.key.ns == p.key.ns
    && PodTarget(w, s, e.key) && e.AllocationId().Some? && e.AllocationId().value in s.aws.addrs
  }

  lemma TookAws(s: State, p: Pod, e: Eip, eni: string)
    requires p.ip.Some? && e.AllocationId().Some? && e.key in s.kube.eips && s.kube.eips[e.key] == e
    requires e.AllocationId().value in s.aws.addrs
    ensures PodTook(s, p, e, eni).aws == s.aws
            || PodTook(s, p, e, eni).aws == Aws.Associate(s.aws, e.AllocationId().value, eni, p.ip.value)
  {
  }

  lemma TookSane(w: World, s: State, p: Pod, e: Eip)
    requires Sane(w, s) && Takes(w, s, p, e)
    ensures Sane(w, PodTook(s, p, e, w.podEnis[p.key]))
  {
    hide Sane, PodTook, Brings, PodTarget, IdsSane;
    SaneIds(w, s);
    AssociateIds(s.aws, e.AllocationId().value, w.podEnis[p.key], p.ip.value);
    TookAws(s, p, e, w.podEnis[p.key]);
    TookDoes(s, p, e, w.podEnis[p.key]);
    BringsMoves(s.aws, PodTook(s, p, e, w.podEnis[p.key]).aws, e.AllocationId().value, (w.podEnis[p.key], p.ip.value));
    NoMoves(s.aws);
    ClaimedSane(w, s, PodTook(s, p, e, w.podEnis[p.key]), e.key, p.key.name);
  }

  lemma BringsMoves(a: Aws.Cloud, a': Aws.Cloud, x: nat, place: (string, string))
    ensures Brings(a, a', x, place) ==> Moves(a, a')
  {
  }

  lemma TookProgress(w: World, s: State, p: Pod, e: Eip)
    requires Sane(w, s) && Takes(w, s, p, e)
    ensures Progress(w, s, PodTook(s, p, e, w.podEnis[p.key]))
  {
    hide Sane, PodTook, Distance, Brings, Rewrites, PodTarget, OutOfSync;
    var s' := PodTook(s, p, e, w.podEnis[p.key]);
    TookDoes(s, p, e, w.podEnis[p.key]);
    TookSane(w, s, p, e);
    PodClaims(w, s, e);
    KeepsPods(s, s', e.key);
    if e.ResourceId().None? {
      assert GoodClaim(w, s'.kube, s'.kube.eips[e.key]);
      ClaimLess(w, s, s', e.key);
    } else if !Sits(s, e, w.PodPlace(p.key)) {
      PodMoveLess(w, s, s', e.key);
    } else if OutOfSync(w, s, e.key) {
      NowInSync(w, s', p, e.key);
      SyncLess(w, s, s', e.key);
    } else {
      InSyncIsServed(w, s, p, e);
      ServedStays(s, p, e, w.podEnis[p.key]);
    }
  }

  lemma KeepsPods(s: State, s': State, key: Key)
    requires Rewrites(s, s', key)
    ensures s'.kube.pods.Keys == s.kube.pods.Keys && s'.kube.eips.Keys == s.kube.eips.Keys
    ensures s'.kube.eips[key].status.Some?
    ensures s'.kube.eips[key].selector == s.kube.eips[key].selector && s'.kube.eips[key].key == s.kube.eips[key].key
  {
  }

  lemma PodClaims(w: World, s: State, e: Eip)
    requires Sane(w, s) && e.key in s.kube.eips && s.kube.eips[e.key] == e && e.selector.PodSelector?
    ensures Invariants.NoneOr(e.ResourceId(), e.selector.podName)
  {
    assert StatusSane(s, e);
  }

  lemma NowInSync(w: World, s: State, p: Pod, key: Key)
    requires w.PodServing(p.key) && p.ip == w.pods[p.key].ip && key in s.kube.eips && key.ns == p.key.ns
    requires s.kube.eips[key].key == key && s.kube.eips[key].selector == PodSelector(p.key.name)
    requires Served(s, p, key, w.podEnis[p.key])
    ensures !OutOfSync(w, s, key)
  {
  }

  lemma InSyncIsServed(w: World, s: State, p: Pod, e: Eip)
    requires Takes(w, s, p, e) && !OutOfSync(w, s, e.key) && Sits(s, e, w.PodPlace(p.key))
    requires e.ResourceId() == Some(p.key.name)
    ensures Served(s, p, e.key, w.podEnis[p.key])
  {
  }

  /** What the pod's listing shows: its one Eip with an address, if it has one. */
  lemma PodSelects(w: World, s: State, p: Pod, keys: seq<Key>, e: Eip)
    requires Sane(w, s) && p.key in s.kube.pods && s.kube.pods[p.key] == p
    requires keys == Listing(s.kube.eips.Keys, w.order, p.key.ns)
    requires forall i :: 0 <= i < |keys| ==> keys[i] in s.kube.eips
    requires p.key in w.pods && w.PodServing(p.key) && p.nodeName.Some? && p.nodeName.value in s.kube.nodes
    requires Creatable(w, s, p.key)
    requires MatchingPod(s.kube.eips, keys, p.key.name) == [e] && e.AllocationId().Some?
    requires e.AllocationId().value in s.aws.addrs
    ensures Takes(w, s, p, e)
  {
    hide Sane;
    PodLists(w, s, p.key.ns);
    PodIs(w, s, p.key);
    MatchesOne(s.kube, p.key.ns, keys, p.key.name, e);
  }

  lemma PodLists(w: World, s: State, ns: string)
    requires Sane(w, s)
    ensures Keyed(s.kube) && Kube.Lists(s.kube, ns, Listing(s.kube.eips.Keys, w.order, ns))
  {
    ListingLists(s.kube, w.order, ns);
  }

  lemma PlacedProgress(w: World, s: State, p: Pod, keys: seq<Key>)
    requires Sane(w, s) && p.key in s.kube.pods && s.kube.pods[p.key] == p
    requires keys == Listing(s.kube.eips.Keys, w.order, p.key.ns)
    requires Keyed(s.kube) && forall i :: 0 <= i < |keys| ==> keys[i] in s.kube.eips
    requires p.key in w.pods && PodFits(w.pods[p.key], p) && !p.deleting
    requires p.nodeName.Some? && w.PodEni(s.kube, p).Ok? && Creatable(w, s, p.key)
    ensures Progress(w, s, PodPlaced(s, p, keys, w.podEnis[p.key]))
  {
    hide Sane, Distance, PodTook, Progress, MatchingPod, Takes;
    Idle(w, s);
    var matched := MatchingPod(s.kube.eips, keys, p.key.name);
    if |matched| == 1 && p.ip.Some? && matched[0].AllocationId().Some? {
      var e := matched[0];
      assert matched == [e];
      if e.AllocationId().value in s.aws.addrs {
        PodSelects(w, s, p, keys, e);
        TookProgress(w, s, p, e);
        TakesAddress(w, s, p, e);
      } else {
        MatchedIsStored(s.kube, keys, p.key.name, e);
        NotTaken(s, p, e, w.podEnis[p.key]);
      }
    }
  }

  lemma MatchedIsStored(k: Kube.Store, keys: seq<Key>, name: string, e: Eip)
    requires Keyed(k) && (forall i :: 0 <= i < |keys| ==> keys[i] in k.eips) && e in MatchingPod(k.eips, keys, name)
    ensures e.key in k.eips && k.eips[e.key] == e
  {
  }

  lemma NotTaken(s: State, p: Pod, e: Eip, eni: string)
    requires p.ip.Some? && e.AllocationId().Some? && e.key in s.kube.eips && s.kube.eips[e.key] == e
    requires e.AllocationId().value !in s.aws.addrs
    ensures PodTook(s, p, e, eni) == s
  {
  }

  lemma TakesAddress(w: World, s: State, p: Pod, e: Eip)
    requires Takes(w, s, p, e)
    ensures e.key in s.kube.eips && s.kube.eips[e.key] == e
  {
  }

  /** Right after the pod's Eip is made, the reconcile does nothing more: that Eip has no address yet. */
  lemma CreatedIsNotPlaced(w: World, s: State, p: Pod, keys: seq<Key>, eni: string)
    requires Sane(w, s) && p.key in s.kube.eips && s.kube.eips[p.key].AllocationId().None?
    requires s.kube.eips[p.key].MatchesPod(p.key.name) && p.key in w.pods
    requires Keyed(s.kube) && (forall i :: 0 <= i < |keys| ==> keys[i] in s.kube.eips)
    requires keys == Listing(s.kube.eips.Keys, w.order, p.key.ns)
    ensures PodPlaced(s, p, keys, eni) == s
  {
    hide Sane, PodTook;
    PodInOrder(w, s, p.key);
    var matched := MatchingPod(s.kube.eips, keys, p.key.name);
    assert p.key in keys;
    assert s.kube.eips[p.key] in matched;
  }

  lemma PodInOrder(w: World, s: State, key: Key)
    requires Sane(w, s) && key in w.pods
    ensures key in w.order
  {
    InOrder(w, key);
  }

  /** What holds of a pod that is there. */
  lemma PodIs(w: World, s: State, key: Key)
    requires Sane(w, s) && key in s.kube.pods
    ensures s.kube.pods[key].key == key && key in w.pods && PodFits(w.pods[key], s.kube.pods[key])
  {
  }

  lemma PodApplyProgress(w: World, s: State, key: Key)
    requires Sane(w, s) && key in s.kube.pods && !s.kube.pods[key].deleting
    requires Keyed(PodCreated(s, s.kube.pods[key]).kube)
    ensures var p := s.kube.pods[key];
            Progress(w, s, PodApplied(s, p, Listing(PodCreated(s, p).kube.eips.Keys, w.order, key.ns),
                                      w.PodEni(s.kube, p)))
  {
    hide Sane, Distance, PodPlaced, Progress;
    PodIs(w, s, key);
    var p := s.kube.pods[key];
    var s1 := PodCreated(s, p);
    SaneIds(w, s);
    var keys := Listing(s1.kube.eips.Keys, w.order, key.ns);
    assert forall i :: 0 <= i < |keys| ==> keys[i] in keys;
    Idle(w, s);
    if p.autocreate && key !in s.kube.eips {
      CreateProgress(w, s, key);
      ProgressSane(w, s, s1);
      if w.PodEni(s.kube, p).Ok? {
        CreatedIsNotPlaced(w, s1, p, keys, w.podEnis[key]);
      }
    } else {
      assert s1 == s;
      if p.nodeName.Some? && w.PodEni(s.kube, p).Ok? && Creatable(w, s, key) {
        PlacedProgress(w, s, p, keys);
      }
    }
  }

  lemma ProgressSane(w: World, s: State, s': State)
    requires Progress(w, s, s')
    ensures Sane(w, s')
  {
  }
}
