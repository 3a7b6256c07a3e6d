/**
 The Kubernetes API server as the operator sees it.

 Every write takes the next number of one global counter as the object's resource version. A write
 that leaves the object as it was is not recorded and takes no number. `eipLog` and `podLog` hold every
 object state ever stored: a watch may still deliver any of them.
 */
module Kube {
  import opened Base

  datatype Store = Store(
    eips: map<Key, Eip>, pods: map<Key, Pod>, nodes: map<string, Node>, next: nat,
    eipLog: set<Eip>, podLog: set<Pod>, homes: map<nat, Key>)

  const EMPTY := Store(map[], map[], map[], 0, {}, {}, map[])

  // ---- Eips ----

  function PutEip(k: Store, e: Eip): Store {
    var e' := e.(version := k.next);
    k.(eips := k.eips[e.key := e'], next := k.next + 1, eipLog := k.eipLog + {e'})
  }

  function CreateEip(k: Store, key: Key, selector: Selector): Store {
    PutEip(k, Eip(key, k.next, k.next, selector, None, false, false)).(homes := k.homes[k.next := key])
  }

  /** Server-side apply of an Eip selecting one pod, without force: an object that already has that
      selector is left alone, one with another selector is a conflict. */
  function CreateForPod(k: Store, key: Key): Result<Store> {
    if key !in k.eips then Ok(CreateEip(k, key, PodSelector(key.name)))
    else if k.eips[key].selector == PodSelector(key.name) then Ok(k)
    else Err(Conflict)
  }

  function RemoveEip(k: Store, key: Key): Store {
    k.(eips := k.eips - {key})
  }

  /** An object with a finalizer is only marked; without one it goes at once. Absence is not an error. */
  function DeleteEip(k: Store, key: Key): Store {
    if key !in k.eips then k
    else if !k.eips[key].finalizer then RemoveEip(k, key)
    else if k.eips[key].deleting then k
    else PutEip(k, k.eips[key].(deleting := true))
  }

  function WriteStatus(k: Store, key: Key, status: Status): Store
    requires key in k.eips
  {
    if k.eips[key].status == Some(status) then k
    else PutEip(k, k.eips[key].(status := Some(status)))
  }

  /** `replace_status`: stored only when the sender's copy carries the current version. */
  function ReplaceStatus(k: Store, e: Eip, status: Status): Result<Store> {
    if e.key !in k.eips then Err(NotFound)
    else if k.eips[e.key].version != e.version then Err(Conflict)
    else Ok(WriteStatus(k, e.key, status))
  }

  function CurrentStatus(k: Store, key: Key): Status
    requires key in k.eips
  {
    if k.eips[key].status.Some? then k.eips[key].status.value else EMPTY_STATUS
  }

  /** Merge patch by name: whatever object has that name now is changed. */
  function SetStatusCreated(k: Store, key: Key, alloc: nat, publicIp: string): Result<Store> {
    if key !in k.eips then Err(NotFound)
    else Ok(WriteStatus(k, key, CurrentStatus(k, key).(allocationId := Some(alloc), publicIp := Some(publicIp))))
  }

  /** Merge patch by name, as above. */
  function SetStatusAssociationId(k: Store, key: Key, association: nat): Result<Store> {
    if key !in k.eips then Err(NotFound)
    else Ok(WriteStatus(k, key, CurrentStatus(k, key).(associationId := Some(association))))
  }

  function SetStatusShouldAttach(k: Store, e: Eip, eni: string, ip: string, resource: string): Result<Store> {
    if e.status.None? then Err(MissingEipStatus)
    else ReplaceStatus(k, e, e.status.value.(eni := Some(eni), privateIp := Some(ip), resourceId := Some(resource)))
  }

  /** The status without claim, place and association. */
  function Cleared(status: Status): Status {
    status.(eni := None, privateIp := None, resourceId := None, associationId := None)
  }

  function SetStatusDetached(k: Store, e: Eip): Result<Store> {
    if e.status.None? then Err(MissingEipStatus)
    else ReplaceStatus(k, e, Cleared(e.status.value))
  }

  // ---- Listing ----

  /** `keys` is some order in which the server may list the Eips of a namespace. */
  predicate Lists(k: Store, ns: string, keys: seq<Key>) {
    && (forall i :: 0 <= i < |keys| ==> keys[i] in k.eips && keys[i].ns == ns)
    && (forall i, j :: 0 <= i < j < |keys| ==> keys[i] != keys[j])
    && (forall key :: key in k.eips && key.ns == ns ==> key in keys)
  }

  function Select(eips: map<Key, Eip>, keys: seq<Key>, keep: Eip -> bool): (r: seq<Eip>)
    requires forall i :: 0 <= i < |keys| ==> keys[i] in eips
    ensures forall e :: e in r <==> exists i :: 0 <= i < |keys| && eips[keys[i]] == e && keep(e)
    ensures |r| <= |keys|
  {
    if keys == [] then []
    else
      var rest := Select(eips, keys[1..], keep);
      assert forall i :: 0 < i < |keys| ==> keys[i] == keys[1..][i - 1];
      if keep(eips[keys[0]]) then [eips[keys[0]]] + rest else rest
  }

  function FirstFree(eips: seq<Eip>, name: string): (r: Option<Eip>)
    ensures r.Some? ==> r.value in eips && r.value.FreeFor(name)
    ensures r.None? ==> forall e :: e in eips ==> !e.FreeFor(name)
  {
    if eips == [] then None
    else if eips[0].FreeFor(name) then Some(eips[0])
    else FirstFree(eips[1..], name)
  }

  /** It is the first of them. */
  lemma {:induction false} FirstFreeIsFirst(eips: seq<Eip>, name: string, i: nat)
    requires i < |eips| && eips[i].FreeFor(name) && forall j :: 0 <= j < i ==> !eips[j].FreeFor(name)
    ensures FirstFree(eips, name) == Some(eips[i])
  {
    if i > 0 {
      FirstFreeIsFirst(eips[1..], name, i - 1);
    }
  }

  // ---- Pods and nodes ----

  function PutPod(k: Store, p: Pod): Store {
    var p' := p.(version := k.next);
    k.(pods := k.pods[p.key := p'], next := k.next + 1, podLog := k.podLog + {p'})
  }

  function RemovePod(k: Store, key: Key): Store {
    k.(pods := k.pods - {key})
  }

  function DeletePod(k: Store, key: Key): Store
    requires key in k.pods
  {
    if !k.pods[key].finalizer then RemovePod(k, key)
    else if k.pods[key].deleting then k
    else PutPod(k, k.pods[key].(deleting := true))
  }

  function Annotate(k: Store, key: Key, a: Annotation): Result<Store> {
    if key !in k.pods then Err(NotFound)
    else if k.pods[key].annotation == Some(a) then Ok(k)
    else Ok(PutPod(k, k.pods[key].(annotation := Some(a))))
  }

  function LabelNode(k: Store, name: string, value: string): Result<Store> {
    if name !in k.nodes then Err(NotFound)
    else Ok(k.(nodes := k.nodes[name := k.nodes[name].(labels := k.nodes[name].labels[EGRESS_LABEL := value])]))
  }

  /** The names the Eip controller's listing returns: the pod of that name, or the nodes with those labels. */
  function Resources(k: Store, e: Eip): set<string> {
    match e.selector
    case PodSelector(p) => if Key(e.key.ns, p) in k.pods then {p} else {}
    case NodeSelector(labels) => set n | n in k.nodes && LabelsMatch(labels, k.nodes[n].labels)
  }
}
