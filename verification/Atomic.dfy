/** What a reconcile does when nothing comes in between and no call fails, as one function of the state. */
module Atomic {
  import opened Base
  import opened Protocol
  import Kube
  import Aws

  // ---- Placing an address ----

  predicate Keyed(k: Kube.Store) {
    forall key :: key in k.eips ==> k.eips[key].key == key
  }

  /** Claim the Eip for `resource`, move its address to the interface and IP, and record the association. */
  function Place(s: State, e: Eip, resource: string, eni: string, ip: string): State
    requires e.status.Some? && e.key in s.kube.eips && s.kube.eips[e.key] == e
    requires e.AllocationId().Some? && e.AllocationId().value in s.aws.addrs
  {
    var k1 := Kube.SetStatusShouldAttach(s.kube, e, eni, ip, resource).value;
    s.(kube := Kube.SetStatusAssociationId(k1, e.key, s.aws.next).value,
       aws := Aws.Associate(s.aws, e.AllocationId().value, eni, ip))
  }

  function WithClaim(s: State, e: Eip, resource: string, eni: string, ip: string): State
    requires e.status.Some? && e.key in s.kube.eips && s.kube.eips[e.key] == e
  {
    s.(kube := Kube.SetStatusShouldAttach(s.kube, e, eni, ip, resource).value)
  }

  function Detach(s: State, e: Eip): State
    requires e.status.Some? && e.key in s.kube.eips && s.kube.eips[e.key] == e
  {
    s.(kube := Kube.SetStatusDetached(s.kube, e).value)
  }

  /** The stores differ in the status of one Eip only. */
  predicate OnlyStatus(k: Kube.Store, k': Kube.Store, key: Key, status: Status) {
    && key in k.eips && k'.eips.Keys == k.eips.Keys && k'.pods == k.pods && k'.nodes == k.nodes && k'.homes == k.homes
    && k'.next >= k.next
    && k'.eips[key] == k.eips[key].(version := k'.eips[key].version, status := Some(status))
    && forall other :: other in k.eips && other != key ==> k'.eips[other] == k.eips[other]
  }

  /** Nothing but one Eip's status and version differs. */
  predicate OnlyEip(k: Kube.Store, k': Kube.Store, key: Key) {
    && k'.eips.Keys == k.eips.Keys && k'.pods == k.pods && k'.nodes == k.nodes
    && (forall other :: other in k.eips && other != key ==> k'.eips[other] == k.eips[other])
    && (key in k.eips ==>
          k'.eips[key] == k.eips[key].(version := k'.eips[key].version, status := k'.eips[key].status))
  }

  lemma WriteDoes(k: Kube.Store, key: Key, status: Status)
    requires key in k.eips && k.eips[key].key == key
    ensures OnlyStatus(k, Kube.WriteStatus(k, key, status), key, status)
  {
  }

  /** What a claim writes, and what placing the address writes and moves. */
  lemma PlaceDoes(s: State, e: Eip, resource: string, eni: string, ip: string)
    requires e.status.Some? && e.key in s.kube.eips && s.kube.eips[e.key] == e
    ensures var status := e.status.value.(eni := Some(eni), privateIp := Some(ip), resourceId := Some(resource));
            && OnlyStatus(s.kube, WithClaim(s, e, resource, eni, ip).kube, e.key, status)
            && (e.AllocationId().Some? && e.AllocationId().value in s.aws.addrs ==>
                  OnlyStatus(s.kube, Place(s, e, resource, eni, ip).kube, e.key,
                             status.(associationId := Some(s.aws.next))))
  {
    hide Kube.WriteStatus;
    var status := e.status.value.(eni := Some(eni), privateIp := Some(ip), resourceId := Some(resource));
    var k1 := Kube.WriteStatus(s.kube, e.key, status);
    WriteDoes(s.kube, e.key, status);
    WriteDoes(k1, e.key, status.(associationId := Some(s.aws.next)));
  }

  // ---- What moves ----

  /** The address has an association that it did not have. */
  predicate Moved(a: Aws.Cloud, a': Aws.Cloud, x: nat) {
    && x in a'.addrs && a'.addrs[x].association.Some?
    && (x in a.addrs ==> a'.addrs[x].association != a.addrs[x].association)
  }

  /** Moving one address does not move another. */
  predicate OnlyMoves(a: Aws.Cloud, a': Aws.Cloud, x: nat) {
    && a'.addrs.Keys == a.addrs.Keys
    && forall y :: y in a.addrs && y != x ==>
         a'.addrs[y] == a.addrs[y] || a'.addrs[y] == a.addrs[y].(association := None)
  }

  lemma NothingMoves(a: Aws.Cloud)
    ensures forall x :: !Moved(a, a, x)
    ensures forall x :: OnlyMoves(a, a, x)
  {
  }

  lemma AssociateMoves(a: Aws.Cloud, x: nat, eni: string, ip: string)
    requires x in a.addrs
    ensures var a' := Aws.Associate(a, x, eni, ip);
            && OnlyMoves(a, a', x) && a' != a && (forall y :: Moved(a, a', y) ==> y == x)
            && x in a'.addrs && a'.addrs[x].association == Some(Association(a.next, eni, ip))
  {
  }

  // ---- Node apply ----

  predicate UsableNode(n: Node) {
    n.ip.Some? && n.providerId.Some? && InstanceId(n.providerId.value).Some?
  }

  /** The Eip's address is brought to the node, unless it is there already. */
  function NodePlaced(s: State, n: Node, e: Eip, eni: Option<string>): State
    requires n.ip.Some? && e.AllocationId().Some? && e.key in s.kube.eips && s.kube.eips[e.key] == e
  {
    if e.AllocationId().value !in s.aws.addrs || eni.None? then s
    else if s.aws.addrs[e.AllocationId().value].At(eni.value, n.ip.value) then s
    else Place(s, e, n.name, eni.value, n.ip.value)
  }

  function NodeApplied(s: State, n: Node, keys: seq<Key>, eni: Option<string>): State
    requires Keyed(s.kube) && forall i :: 0 <= i < |keys| ==> keys[i] in s.kube.eips
  {
    var chosen := Kube.FirstFree(MatchingNode(s.kube.eips, keys, n.labels), n.name);
    if !UsableNode(n) || chosen.None? || n.ready.None? then s
    else
      var e := chosen.value;
      if n.ready.value != "True" then Detach(s, e)
      else if e.AllocationId().None? then s
      else NodePlaced(s, n, e, eni)
  }

  /** What the reconcile answers when no call fails. */
  function NodeAnswer(s: State, n: Node, keys: seq<Key>, eni: Option<string>): Result<Action>
    requires Keyed(s.kube) && forall i :: 0 <= i < |keys| ==> keys[i] in s.kube.eips
  {
    if n.ip.None? then Err(MissingNodeIp)
    else if n.providerId.None? then Err(MissingProviderId)
    else if InstanceId(n.providerId.value).None? then Err(MalformedProviderId)
    else
      var matched := MatchingNode(s.kube.eips, keys, n.labels);
      var chosen := Kube.FirstFree(matched, n.name);
      if matched == [] then Err(NoEipResourceWithThatNodeSelector)
      else if n.ready.None? then Err(MissingNodeReadyCondition)
      else if n.ready.value != "True" || chosen.None? then Ok(Await)
      else if chosen.value.AllocationId().None? then Err(MissingAllocationId)
      else if chosen.value.AllocationId().value !in s.aws.addrs then Err(NotFound)
      else if eni.None? then Err(NoInterfaceWithThatIp)
      else Ok(Await)
  }

  // ---- Pod apply ----

  function PodCreated(s: State, p: Pod): State {
    s.(kube := if p.autocreate then OrElse(Kube.CreateForPod(s.kube, p.key), s.kube) else s.kube)
  }

  function Annotated(s: State, p: Pod, a: Annotation): State {
    s.(kube := OrElse(Kube.Annotate(s.kube, p.key, a), s.kube))
  }

  /** The pod claims the Eip, its address is brought there unless it is there already, and the pod is annotated. */
  function PodTook(s: State, p: Pod, e: Eip, eni: string): State
    requires p.ip.Some? && e.AllocationId().Some? && e.key in s.kube.eips && s.kube.eips[e.key] == e
  {
    if e.AllocationId().value !in s.aws.addrs then s
    else
      var address := s.aws.addrs[e.AllocationId().value];
      var s' := if address.At(eni, p.ip.value) then WithClaim(s, e, p.key.name, eni, p.ip.value)
                else Place(s, e, p.key.name, eni, p.ip.value);
      Annotated(s', p, Annotation(e.AllocationId().value, address.publicIp))
  }

  /** `s` is the state in which the Eips are listed. */
  function PodPlaced(s: State, p: Pod, keys: seq<Key>, eni: string): State
    requires Keyed(s.kube) && forall i :: 0 <= i < |keys| ==> keys[i] in s.kube.eips
  {
    var matched := MatchingPod(s.kube.eips, keys, p.key.name);
    if |matched| != 1 || p.ip.None? || matched[0].AllocationId().None? then s
    else
      assert matched[0] in matched;
      PodTook(s, p, matched[0], eni)
  }

  /** `located` is the interface the pod's address belongs on, if it can be found. */
  function PodApplied(s: State, p: Pod, keys: seq<Key>, located: Result<string>): State
    requires Keyed(PodCreated(s, p).kube) && forall i :: 0 <= i < |keys| ==> keys[i] in PodCreated(s, p).kube.eips
  {
    if p.autocreate && Kube.CreateForPod(s.kube, p.key).Err? then s
    else if p.nodeName.None? || located.Err? then PodCreated(s, p)
    else PodPlaced(PodCreated(s, p), p, keys, located.value)
  }

  function PlacedAnswer(s: State, p: Pod, keys: seq<Key>): Result<Action>
    requires forall i :: 0 <= i < |keys| ==> keys[i] in s.kube.eips
  {
    var matched := MatchingPod(s.kube.eips, keys, p.key.name);
    if |matched| == 0 then Ok(Await)
    else if |matched| > 1 then Err(MultipleEipsTaggedForPod)
    else if matched[0].AllocationId().None? then Err(MissingAllocationId)
    else if matched[0].AllocationId().value !in s.aws.addrs || p.key !in s.kube.pods then Err(NotFound)
    else Ok(Await)
  }

  /** What the reconcile answers when no call fails. */
  function PodAnswer(s: State, p: Pod, keys: seq<Key>, located: Result<string>): Result<Action>
    requires forall i :: 0 <= i < |keys| ==> keys[i] in PodCreated(s, p).kube.eips
  {
    if p.autocreate && Kube.CreateForPod(s.kube, p.key).Err? then Err(Conflict)
    else if p.nodeName.None? then Ok(Requeue)
    else if located.Err? then Err(located.error)
    else PlacedAnswer(PodCreated(s, p), p, keys)
  }

  // ---- Cleanup of a pod or a node ----

  predicate AllAllocated(a: Aws.Cloud, todo: seq<Eip>) {
    forall i :: 0 <= i < |todo| ==> todo[i].AllocationId().Some? && todo[i].AllocationId().value in a.addrs
  }

  /** Take the Eip's address off its interface and clear the claim. */
  function LoosenOne(s: State, e: Eip): State
    requires e.AllocationId().Some? && e.AllocationId().value in s.aws.addrs
  {
    var address := s.aws.addrs[e.AllocationId().value];
    s.(aws := if address.association.Some? then Aws.Disassociate(s.aws, address.association.value.id) else s.aws,
       kube := OrElse(Kube.SetStatusDetached(s.kube, e), s.kube))
  }

  /** The loop: one Eip after the other, up to one that has no address. */
  function Loosened(s: State, todo: seq<Eip>): State
    decreases |todo|
  {
    if todo == [] || todo[0].AllocationId().None? || todo[0].AllocationId().value !in s.aws.addrs then s
    else Loosened(LoosenOne(s, todo[0]), todo[1..])
  }

  /** After the loop a pod's own Eip is deleted, or the node is labelled, and the finalizer goes. */
  function CleanedUp(s: State, actor: Actor, todo: seq<Eip>): State {
    var s1 := Loosened(s, todo);
    if AllAllocated(s.aws, todo) then s1.(kube := Gone(Tail(s1.kube, actor), actor)) else s1
  }

  // ---- Eip apply and cleanup ----

  /** Find or allocate the address and record it. */
  function Allocated(s: State, e: Eip, found: seq<nat>, publicIp: string): State
    requires Aws.Tagged(s.aws, e.uid, found) && |found| <= 1
  {
    if found == [] then
      s.(aws := Aws.Allocate(s.aws, e.uid, e.key.ns, publicIp),
         kube := OrElse(Kube.SetStatusCreated(s.kube, e.key, s.aws.next, publicIp), s.kube))
    else
      s.(kube := OrElse(Kube.SetStatusCreated(s.kube, e.key, found[0], s.aws.addrs[found[0]].publicIp), s.kube))
  }

  /** Withdraw a claim by a resource that does not match. */
  function Checked(s: State, e: Eip): State {
    if e.ResourceId().None? || e.ResourceId().value in Kube.Resources(s.kube, e) then s
    else
      s.(kube := OrElse(Kube.SetStatusDetached(s.kube, e), s.kube),
         aws := if e.AssociationId().Some? then Aws.Disassociate(s.aws, e.AssociationId().value) else s.aws)
  }

  function EipApplied(s: State, e: Eip, found: seq<nat>, publicIp: string): State
    requires Aws.Tagged(s.aws, e.uid, found)
  {
    if |found| > 1 then s
    else
      var s1 := Allocated(s, e, found, publicIp);
      if e.key !in s.kube.eips then s1 else Checked(s1, e)
  }

  function Released(a: Aws.Cloud, found: seq<nat>): Aws.Cloud {
    a.(addrs := map x | x in a.addrs && x !in found :: a.addrs[x])
  }

  /** The addresses go, and then the finalizer and with it the object. */
  function EipCleaned(s: State, e: Eip, found: seq<nat>): State {
    s.(aws := Released(s.aws, found), kube := Finalized(s.kube, e))
  }
}
