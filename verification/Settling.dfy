/**
 The operator in a quiet cluster: nothing new comes from outside, no call fails, and reconciles follow one
 another; what is being deleted is cleaned up and goes. This module says what a turn is and what is counted.
 */
module Settling {
  import opened Base
  import opened Protocol
  import opened Atomic
  import opened PodResults
  import opened Detaching
  import Kube
  import Aws

  /** What stays the same. `order` is the order in which the server lists Eips, `leaving` are the nodes that
      are being deleted, `enis` is the interface of each node that has one with its IP, and `podEnis` the
      interface each pod's address belongs on, if it can be found while its node is there. */
  datatype World = World(
    ns: string, order: seq<Key>, nodes: map<string, Node>, leaving: set<string>, enis: map<string, string>,
    pods: map<Key, Pod>, podEnis: map<Key, string>)
  {
    function NodeEni(name: string): Option<string> {
      if name in enis then Some(enis[name]) else None
    }

    function PodEni(k: Kube.Store, p: Pod): Result<string> {
      if p.nodeName.None? || p.nodeName.value !in k.nodes then Err(NotFound)
      else if p.key in podEnis then Ok(podEnis[p.key]) else Err(NoInterfaceWithThatIp)
    }

    /** The node takes part: it stays, says where it is and is ready. */
    predicate Serving(name: string) {
      name in nodes && name !in leaving && UsableNode(nodes[name]) && nodes[name].ready == Some("True") && name in enis
    }

    /** The pod takes part: it stays and has a place. */
    predicate PodServing(key: Key) {
      key in pods && !pods[key].deleting && pods[key].nodeName.Some? && pods[key].ip.Some? && key in podEnis
    }

    function NodePlace(name: string): (string, string)
      requires Serving(name)
    {
      (enis[name], nodes[name].ip.value)
    }

    function PodPlace(key: Key): (string, string)
      requires PodServing(key)
    {
      (podEnis[key], pods[key].ip.value)
    }

    /** No two resources share an interface and IP. */
    ghost predicate DistinctPlaces() {
      && (forall m, n :: Serving(m) && Serving(n) && NodePlace(m) == NodePlace(n) ==> m == n)
      && (forall p, q :: PodServing(p) && PodServing(q) && PodPlace(p) == PodPlace(q) ==> p == q)
      && (forall n, p :: Serving(n) && PodServing(p) ==> NodePlace(n) != PodPlace(p))
    }

    ghost predicate Valid() {
      && DistinctPlaces()
      && (forall i, j :: 0 <= i < j < |order| ==> order[i] != order[j])
      && (forall p :: p in pods ==> p in order && pods[p].key == p && p.name !in nodes)
      && (forall n :: n in nodes ==> nodes[n].name == n)
    }
  }

  /** The keys of the namespace, in the given order. */
  function Listing(keys: set<Key>, order: seq<Key>, ns: string): (r: seq<Key>)
    ensures forall key :: key in r <==> key in keys && key.ns == ns && key in order
  {
    if order == [] then []
    else
      var rest := Listing(keys, order[1..], ns);
      if order[0] in keys && order[0].ns == ns then [order[0]] + rest else rest
  }

  lemma {:induction false} ListingLists(k: Kube.Store, order: seq<Key>, ns: string)
    requires forall i, j :: 0 <= i < j < |order| ==> order[i] != order[j]
    requires forall key :: key in k.eips ==> key in order
    ensures Kube.Lists(k, ns, Listing(k.eips.Keys, order, ns))
  {
    ListingDistinct(k.eips.Keys, order, ns);
    var r := Listing(k.eips.Keys, order, ns);
    forall i | 0 <= i < |r| ensures r[i] in k.eips && r[i].ns == ns {
      assert r[i] in r;
    }
  }

  lemma {:induction false} ListingDistinct(keys: set<Key>, order: seq<Key>, ns: string)
    requires forall i, j :: 0 <= i < j < |order| ==> order[i] != order[j]
    ensures forall i, j :: 0 <= i < j < |Listing(keys, order, ns)| ==>
              Listing(keys, order, ns)[i] != Listing(keys, order, ns)[j]
  {
    if order != [] {
      ListingDistinct(keys, order[1..], ns);
      var rest := Listing(keys, order[1..], ns);
      forall i | 0 <= i < |rest| ensures rest[i] != order[0] {
        assert rest[i] in rest;
      }
    }
  }

  // ---- Turns ----

  /** One reconcile, from a copy that is current and without interruption. */
  datatype Turn =
    | EipTurn(key: Key, found: seq<nat>, publicIp: string)
    | PodTurn(key: Key)
    | NodeTurn(name: string)

  /** The stores fit the fixed part of the world: what is not there has been deleted. */
  ghost predicate Fits(w: World, k: Kube.Store) {
    && (forall n :: n in k.nodes ==> n in w.nodes && k.nodes[n] == w.nodes[n])
    && (forall n :: n in w.nodes ==> n in k.nodes || n in w.leaving)
    && (forall p :: p in k.pods ==> p in w.pods && PodFits(w.pods[p], k.pods[p]))
    && (forall p :: p in w.pods ==> p in k.pods || w.pods[p].deleting)
    && (forall key :: key in k.eips ==> key in w.order)
  }

  /** The same pod, but for what the operator writes to it. */
  predicate PodFits(a: Pod, b: Pod) {
    b == a.(version := b.version, annotation := b.annotation, finalizer := b.finalizer)
  }

  /** What every reachable state guarantees. */
  ghost predicate Sane(w: World, s: State) {
    && w.Valid() && Fits(w, s.kube) && Keyed(s.kube) && FlagsSane(s.kube) && IdsSane(s.aws)
    && (forall key :: key in s.kube.eips ==> s.kube.eips[key].uid < s.kube.next)
    && (forall a, b :: a in s.kube.eips && b in s.kube.eips && s.kube.eips[a].uid == s.kube.eips[b].uid ==> a == b)
    && (forall x :: x in s.aws.addrs ==> x < s.aws.next && s.aws.addrs[x].uid < s.kube.next)
    && (forall x, y :: x in s.aws.addrs && y in s.aws.addrs && s.aws.addrs[x].uid == s.aws.addrs[y].uid ==> x == y)
    && (forall key :: key in s.kube.eips ==> StatusSane(s, s.kube.eips[key]))
  }

  /** An object is kept for deletion only by its finalizer. */
  ghost predicate FlagsSane(k: Kube.Store) {
    && (forall key :: key in k.eips && k.eips[key].deleting ==> k.eips[key].finalizer)
    && (forall p :: p in k.pods && k.pods[p].deleting ==> k.pods[p].finalizer)
  }

  /** Association ids are used once, and new ones are new. */
  ghost predicate IdsSane(a: Aws.Cloud) {
    OwnAssociations(a) && forall x :: x in a.addrs && a.addrs[x].association.Some? ==>
        a.addrs[x].association.value.id < a.next
  }

  /** The recorded address is the Eip's own, and is there unless the Eip is being deleted; only an Eip with an
      address is claimed, and a pod's only by the pod it selects. */
  ghost predicate StatusSane(s: State, e: Eip) {
    && (e.AllocationId().Some? && e.AllocationId().value in s.aws.addrs ==>
          && s.aws.addrs[e.AllocationId().value].uid == e.uid
          && e.status.value.publicIp == Some(s.aws.addrs[e.AllocationId().value].publicIp))
    && (e.AllocationId().Some? ==> e.AllocationId().value < s.aws.next)
    && (e.AllocationId().Some? && !e.deleting ==> e.AllocationId().value in s.aws.addrs)
    && (e.ResourceId().Some? ==> e.AllocationId().Some?)
    && (e.ResourceId().Some? && e.selector.PodSelector? ==> e.ResourceId().value == e.selector.podName)
  }

  ghost predicate CanTurn(w: World, s: State, t: Turn) {
    t.EipTurn? && t.key in s.kube.eips ==> Aws.Tagged(s.aws, s.kube.eips[t.key].uid, t.found)
  }

  /** The turn of an object that is gone does nothing. An object without a finalizer gets it; one that is being
      deleted is cleaned up; any other is applied. */
  ghost function Turned(w: World, s: State, t: Turn): State
    requires Sane(w, s) && CanTurn(w, s, t)
  {
    match t
    case EipTurn(key, found, publicIp) =>
      if key !in s.kube.eips then s else EipTurned(s, s.kube.eips[key], found, publicIp)
    case PodTurn(key) =>
      if key !in s.kube.pods then s else PodTurned(w, s, s.kube.pods[key])
    case NodeTurn(name) =>
      if name !in s.kube.nodes then s
      else if name in w.leaving then NodeLeft(w, s, w.nodes[name])
      else NodeApplied(s, w.nodes[name], NodeKeys(w, s), w.NodeEni(name))
  }

  function EipTurned(s: State, e: Eip, found: seq<nat>, publicIp: string): State
    requires Aws.Tagged(s.aws, e.uid, found)
  {
    if !e.finalizer then s.(kube := Kube.PutEip(s.kube, e.(finalizer := true)))
    else if e.deleting then EipCleaned(s, e, found)
    else EipApplied(s, e, found, publicIp)
  }

  ghost function PodTurned(w: World, s: State, p: Pod): State
    requires Keyed(s.kube)
  {
    if !p.finalizer then s.(kube := Kube.PutPod(s.kube, p.(finalizer := true)))
    else if p.deleting then CleanedUp(s, PodActor(p), PodTodo(w, s, p))
    else
      CreatedKeys(s, p);
      PodApplied(s, p, Listing(PodCreated(s, p).kube.eips.Keys, w.order, p.key.ns), w.PodEni(s.kube, p))
  }

  ghost function PodTodo(w: World, s: State, p: Pod): seq<Eip> {
    Claimed(s.kube.eips, Listing(s.kube.eips.Keys, w.order, p.key.ns), PodActor(p))
  }

  ghost function NodeTodo(w: World, s: State, n: Node): seq<Eip> {
    Claimed(s.kube.eips, NodeKeys(w, s), NodeActor(n))
  }

  /** A node that is being deleted is cleaned up, and then it goes. */
  ghost function NodeLeft(w: World, s: State, n: Node): State {
    var s' := CleanedUp(s, NodeActor(n), NodeTodo(w, s, n));
    if AllAllocated(s.aws, NodeTodo(w, s, n)) then s'.(kube := s'.kube.(nodes := s'.kube.nodes - {n.name})) else s'
  }

  lemma CreatedKeys(s: State, p: Pod)
    requires Keyed(s.kube)
    ensures Keyed(PodCreated(s, p).kube)
  {
  }

  // ---- The Eip a node would take ----

  function Chosen(eips: map<Key, Eip>, keys: seq<Key>, n: Node): (r: Option<Key>)
    requires forall i :: 0 <= i < |keys| ==> keys[i] in eips
    ensures r.Some? ==>
              r.value in keys && r.value in eips && eips[r.value].MatchesNode(n.labels) && eips[r.value].FreeFor(n.name)
    ensures r.None? ==> forall i :: 0 <= i < |keys| ==>
              !(eips[keys[i]].MatchesNode(n.labels) && eips[keys[i]].FreeFor(n.name))
  {
    if keys == [] then None
    else if eips[keys[0]].MatchesNode(n.labels) && eips[keys[0]].FreeFor(n.name) then Some(keys[0])
    else Chosen(eips, keys[1..], n)
  }

  lemma {:induction false} ChosenIsFirstFree(eips: map<Key, Eip>, keys: seq<Key>, n: Node, keep: Eip -> bool)
    requires forall i :: 0 <= i < |keys| ==> keys[i] in eips
    requires forall e :: keep(e) <==> e.MatchesNode(n.labels)
    ensures var r := Chosen(eips, keys, n);
            && Kube.Select(eips, keys, keep) == MatchingNode(eips, keys, n.labels)
            && Kube.FirstFree(Kube.Select(eips, keys, keep), n.name) == if r.Some? then Some(eips[r.value]) else None
  {
    if keys != [] {
      ChosenIsFirstFree(eips, keys[1..], n, keep);
    }
  }

  /** Nothing that could be chosen comes before the choice. */
  lemma {:induction false} ChosenIsEarliest(eips: map<Key, Eip>, keys: seq<Key>, n: Node, j: nat)
    requires forall i :: 0 <= i < |keys| ==> keys[i] in eips
    requires j < |keys| && eips[keys[j]].MatchesNode(n.labels) && eips[keys[j]].FreeFor(n.name)
    ensures Chosen(eips, keys, n).Some? && exists i :: 0 <= i <= j && keys[i] == Chosen(eips, keys, n).value
  {
    if !(eips[keys[0]].MatchesNode(n.labels) && eips[keys[0]].FreeFor(n.name)) {
      ChosenIsEarliest(eips, keys[1..], n, j - 1);
      var i :| 0 <= i <= j - 1 && keys[1..][i] == Chosen(eips, keys[1..], n).value;
      assert keys[i + 1] == Chosen(eips, keys, n).value;
    } else {
      assert keys[0] == Chosen(eips, keys, n).value;
    }
  }

  lemma {:induction false} ChosenSame(eips: map<Key, Eip>, eips': map<Key, Eip>, keys: seq<Key>, n: Node)
    requires forall i :: 0 <= i < |keys| ==> keys[i] in eips && keys[i] in eips'
    requires forall i :: 0 <= i < |keys| ==> eips[keys[i]].selector == eips'[keys[i]].selector
    requires forall i :: 0 <= i < |keys| ==> (eips[keys[i]].FreeFor(n.name) <==> eips'[keys[i]].FreeFor(n.name))
    ensures Chosen(eips, keys, n) == Chosen(eips', keys, n)
  {
    if keys != [] {
      ChosenSame(eips, eips', keys[1..], n);
    }
  }

  ghost function NodeKeys(w: World, s: State): (keys: seq<Key>)
    ensures forall i :: 0 <= i < |keys| ==> keys[i] in s.kube.eips
  {
    var keys := Listing(s.kube.eips.Keys, w.order, w.ns);
    assert forall i :: 0 <= i < |keys| ==> keys[i] in keys;
    keys
  }

  ghost function NodeChoice(w: World, s: State, name: string): (r: Option<Key>)
    requires name in w.nodes
    ensures r.Some? ==> r.value in s.kube.eips && s.kube.eips[r.value].MatchesNode(w.nodes[name].labels)
                          && s.kube.eips[r.value].FreeFor(w.nodes[name].name)
  {
    Chosen(s.kube.eips, NodeKeys(w, s), w.nodes[name])
  }

  // ---- What is counted ----

  ghost function DeletingPods(s: State): set<Key> {
    set p | p in s.kube.pods && s.kube.pods[p].deleting
  }

  ghost function LeavingNodes(w: World, s: State): set<string> {
    set n | n in s.kube.nodes && n in w.leaving
  }

  ghost function DeletingEips(s: State): set<Key> {
    set key | key in s.kube.eips && s.kube.eips[key].deleting
  }

  ghost function BareEips(s: State): set<Key> {
    set key | key in s.kube.eips && !s.kube.eips[key].finalizer
  }

  ghost function BarePods(s: State): set<Key> {
    set p | p in s.kube.pods && !s.kube.pods[p].finalizer
  }

  /** Autocreated Eips that are not there yet, of pods that stay. */
  ghost function Missing(s: State): set<Key> {
    set p | p in s.kube.pods && s.kube.pods[p].autocreate && !s.kube.pods[p].deleting && p !in s.kube.eips
  }

  /** Eips without an address. */
  ghost function Unrecorded(s: State): set<Key> {
    set key | key in s.kube.eips && s.kube.eips[key].AllocationId().None?
  }

  /** The claim is by a resource that matches, stays and, if a node, is ready. */
  ghost predicate GoodClaim(w: World, k: Kube.Store, e: Eip) {
    && e.ResourceId().Some? && e.ResourceId().value in Kube.Resources(k, e)
    && (e.selector.PodSelector? ==> PodOf(e) in w.pods && !w.pods[PodOf(e)].deleting)
    && (e.selector.NodeSelector? ==>
          && e.ResourceId().value in w.nodes && e.ResourceId().value !in w.leaving
          && w.nodes[e.ResourceId().value].ready == Some("True"))
  }

  ghost function Bad(w: World, s: State): set<Key> {
    set key | key in s.kube.eips && s.kube.eips[key].ResourceId().Some? && !GoodClaim(w, s.kube, s.kube.eips[key])
  }

  ghost function Unclaimed(s: State): set<Key> {
    set key | key in s.kube.eips && s.kube.eips[key].ResourceId().None?
  }

  /** The address of the Eip is at the place. */
  ghost predicate Sits(s: State, e: Eip, place: (string, string)) {
    && e.AllocationId().Some? && e.AllocationId().value in s.aws.addrs
    && s.aws.addrs[e.AllocationId().value].At(place.0, place.1)
  }

  ghost predicate NodeAstray(w: World, s: State, name: string) {
    && w.Serving(name) && NodeChoice(w, s, name).Some?
    && s.kube.eips[NodeChoice(w, s, name).value].AllocationId().Some?
    && !Sits(s, s.kube.eips[NodeChoice(w, s, name).value], w.NodePlace(name))
  }

  ghost function NodesAstray(w: World, s: State): set<string> {
    set n | n in w.nodes && NodeAstray(w, s, n)
  }

  function PodOf(e: Eip): Key
    requires e.selector.PodSelector?
  {
    Key(e.key.ns, e.selector.podName)
  }

  /** The Eip is the one its pod takes. */
  ghost predicate PodTarget(w: World, s: State, key: Key) {
    && key in s.kube.eips && s.kube.eips[key].selector.PodSelector? && w.PodServing(PodOf(s.kube.eips[key]))
    && w.pods[PodOf(s.kube.eips[key])].nodeName.value in s.kube.nodes
    && OnlyMatch(s.kube, key.ns, s.kube.eips[key].selector.podName, s.kube.eips[key])
    && s.kube.eips[key].AllocationId().Some? && Creatable(w, s, PodOf(s.kube.eips[key]))
  }

  /** No other Eip has the name of the Eip the pod asks for. */
  ghost predicate Creatable(w: World, s: State, p: Key)
    requires p in w.pods
  {
    w.pods[p].autocreate && p in s.kube.eips ==> s.kube.eips[p].selector == PodSelector(p.name)
  }

  ghost predicate PodAstray(w: World, s: State, key: Key) {
    PodTarget(w, s, key) && !Sits(s, s.kube.eips[key], w.PodPlace(PodOf(s.kube.eips[key])))
  }

  ghost function PodsAstray(w: World, s: State): set<Key> {
    set key | key in s.kube.eips && PodAstray(w, s, key)
  }

  /** An unclaimed Eip whose status still tells of a place. */
  ghost predicate IsDirty(e: Eip) {
    e.status.Some? && e.ResourceId().None?
        && e.status.value != Status(e.status.value.allocationId, e.status.value.publicIp, None, None, None, None)
  }

  ghost function Dirty(s: State): set<Key> {
    set key | key in s.kube.eips && IsDirty(s.kube.eips[key])
  }

  /** The status or the pod's annotation does not tell where the address is. */
  ghost predicate OutOfSync(w: World, s: State, key: Key) {
    && PodTarget(w, s, key)
    && var e, p := s.kube.eips[key], PodOf(s.kube.eips[key]);
       !(&& e.status.value.eni == Some(w.PodPlace(p).0) && e.status.value.privateIp == Some(w.PodPlace(p).1)
         && p in s.kube.pods && e.AllocationId().value in s.aws.addrs
         && s.kube.pods[p].annotation == Some(Annotation(e.AllocationId().value,
                                                         s.aws.addrs[e.AllocationId().value].publicIp)))
  }

  ghost function PodsOutOfSync(w: World, s: State): set<Key> {
    set key | key in s.kube.eips && OutOfSync(w, s, key)
  }

  /** Compared from the left. */
  datatype Measure = Measure(leaving: nat, missing: nat, bare: nat, unrecorded: nat, claims: nat, astray: nat,
                             untidy: nat)
  {
    predicate Less(m: Measure) {
      || leaving < m.leaving
      || (leaving == m.leaving && (
          || missing < m.missing
          || (missing == m.missing && (
              || bare < m.bare
              || (bare == m.bare && (
                  || unrecorded < m.unrecorded
                  || (unrecorded == m.unrecorded && (
                      || claims < m.claims
                      || (claims == m.claims && (
                          || astray < m.astray
                          || (astray == m.astray && untidy < m.untidy)))))))))))
    }
  }

  /** What is still to be removed. A pod counts twice: its Eip may have to be deleted after it. */
  ghost function LeavingCount(w: World, s: State): nat {
    2 * |DeletingPods(s)| + |LeavingNodes(w, s)| + |DeletingEips(s)|
  }

  ghost function BareCount(s: State): nat {
    |BareEips(s)| + |BarePods(s)|
  }

  ghost function ClaimCount(w: World, s: State): nat {
    2 * |Bad(w, s)| + |Unclaimed(s)|
  }

  ghost function AstrayCount(w: World, s: State): nat {
    |NodesAstray(w, s)| + |PodsAstray(w, s)|
  }

  ghost function UntidyCount(w: World, s: State): nat {
    |Dirty(s)| + |PodsOutOfSync(w, s)|
  }

  ghost function Distance(w: World, s: State): Measure {
    Measure(LeavingCount(w, s), |Missing(s)|, BareCount(s), |Unrecorded(s)|, ClaimCount(w, s), AstrayCount(w, s),
            UntidyCount(w, s))
  }
}
