/**
 The sweep at startup, with the tags as they are on the addresses: which addresses it looks at, which of
 them it takes for orphans, and that it never takes one that belongs to an Eip.
 */
module Startup {
  import opened Base

  // ---- Tags ----

  datatype Tag = Tag(key: Option<string>, value: Option<string>)

  const EIP_UID_TAG := "eip.materialize.cloud/eip_uid"
  const EIP_NAME_TAG := "eip.materialize.cloud/eip_name"
  const CLUSTER_NAME_TAG := "eip.materialize.cloud/cluster_name"
  const NAMESPACE_TAG := "eip.materialize.cloud/namespace"
  const POD_NAME_TAG := "eip.materialize.cloud/pod_name"
  const NODE_SELECTOR_TAG := "eip.materialize.cloud/node_selector"
  const NAME_TAG := "Name"
  const LEGACY_CLUSTER_NAME_TAG := "eip.aws.materialize.com/cluster_name"

  function NewTag(key: string, value: string): Tag {
    Tag(Some(key), Some(value))
  }

  /** The tags a new address gets: the configured ones, in any order, and then the operator's own.
      `selectorText` is the node selector as it is written into its tag. */
  function AllocateTags(defaults: seq<Tag>, uid: string, name: string, selector: Selector, selectorText: string,
                        cluster: string, namespace: string): seq<Tag>
  {
    defaults
    + [NewTag(EIP_UID_TAG, uid), NewTag(EIP_NAME_TAG, name), NewTag(NAMESPACE_TAG, namespace),
       NewTag(CLUSTER_NAME_TAG, cluster)]
    + (match selector
       case PodSelector(podName) => [NewTag(POD_NAME_TAG, podName)]
       case NodeSelector(_) => [NewTag(NODE_SELECTOR_TAG, selectorText)])
    + [NewTag(NAME_TAG, "eip-operator:" + cluster + ":" + namespace + ":" + name)]
  }

  /** The value of the first tag with the key. */
  function GetTag(tags: seq<Tag>, key: string): Option<string> {
    if tags == [] then None
    else if tags[0].key == Some(key) then tags[0].value
    else GetTag(tags[1..], key)
  }

  function TagOf(tags: Option<seq<Tag>>, key: string): Option<string> {
    if tags.Some? then GetTag(tags.value, key) else None
  }

  /** What the tag filters of a listing look for. */
  predicate HasTag(tags: Option<seq<Tag>>, key: string, value: string) {
    tags.Some? && NewTag(key, value) in tags.value
  }

  /** The configured tags use none of the keys the operator decides by. */
  predicate AvoidsReserved(defaults: seq<Tag>) {
    forall i :: 0 <= i < |defaults| ==>
      && defaults[i].key != Some(EIP_UID_TAG) && defaults[i].key != Some(NAMESPACE_TAG)
      && defaults[i].key != Some(CLUSTER_NAME_TAG) && defaults[i].key != Some(LEGACY_CLUSTER_NAME_TAG)
  }

  lemma {:induction false} GetTagAfter(first: seq<Tag>, second: seq<Tag>, key: string)
    requires forall i :: 0 <= i < |first| ==> first[i].key != Some(key)
    ensures GetTag(first + second, key) == GetTag(second, key)
  {
    if first == [] {
      assert first + second == second;
    } else {
      assert (first + second)[1..] == first[1..] + second;
      GetTagAfter(first[1..], second, key);
    }
  }

  /** An address made for an Eip can be told by its tags: the lookup gives the Eip's uid back, and the filters
      see exactly its namespace and cluster, and never the legacy cluster tag. */
  lemma AllocatedTags(defaults: seq<Tag>, uid: string, name: string, selector: Selector, text: string,
                      cluster: string, namespace: string)
    requires AvoidsReserved(defaults)
    ensures var tags := Some(AllocateTags(defaults, uid, name, selector, text, cluster, namespace));
            && TagOf(tags, EIP_UID_TAG) == Some(uid)
            && (forall n :: HasTag(tags, NAMESPACE_TAG, n) <==> n == namespace)
            && (forall n :: HasTag(tags, CLUSTER_NAME_TAG, n) <==> n == cluster)
            && (forall n :: !HasTag(tags, LEGACY_CLUSTER_NAME_TAG, n))
  {
    DistinctKeys();
    var own := AllocateTags([], uid, name, selector, text, cluster, namespace);
    var tags := AllocateTags(defaults, uid, name, selector, text, cluster, namespace);
    assert tags == defaults + own;
    GetTagAfter(defaults, own, EIP_UID_TAG);
    assert own[0] == NewTag(EIP_UID_TAG, uid) && own[2] == NewTag(NAMESPACE_TAG, namespace)
           && own[3] == NewTag(CLUSTER_NAME_TAG, cluster);
    assert tags[|defaults| + 2] == own[2] && tags[|defaults| + 3] == own[3];
    forall i | 0 <= i < |tags|
      ensures tags[i].key == Some(NAMESPACE_TAG) ==> tags[i].value == Some(namespace)
      ensures tags[i].key == Some(CLUSTER_NAME_TAG) ==> tags[i].value == Some(cluster)
      ensures tags[i].key != Some(LEGACY_CLUSTER_NAME_TAG)
    {
      if i < |defaults| {
        assert tags[i] == defaults[i];
      } else {
        assert tags[i] == own[i - |defaults|];
      }
    }
  }

  /** The lookup finds the first tag with the key, whatever comes after it. */
  lemma {:induction false} GetTagIsFirst(tags: seq<Tag>, key: string, i: nat)
    requires i < |tags| && tags[i].key == Some(key) && forall j :: 0 <= j < i ==> tags[j].key != Some(key)
    ensures GetTag(tags, key) == tags[i].value
  {
    if i > 0 {
      GetTagIsFirst(tags[1..], key, i - 1);
    }
  }

  /** The value the operator gives to each of its keys. */
  function OwnTag(key: string, uid: string, name: string, selector: Selector, text: string, cluster: string,
                  namespace: string): Option<string>
  {
    if key == EIP_UID_TAG then Some(uid)
    else if key == EIP_NAME_TAG then Some(name)
    else if key == NAMESPACE_TAG then Some(namespace)
    else if key == CLUSTER_NAME_TAG then Some(cluster)
    else if key == POD_NAME_TAG then (if selector.PodSelector? then Some(selector.podName) else None)
    else if key == NODE_SELECTOR_TAG then (if selector.NodeSelector? then Some(text) else None)
    else if key == NAME_TAG then Some("eip-operator:" + cluster + ":" + namespace + ":" + name)
    else None
  }

  /** Looking a key up finds what the operator gives it, and a key that neither the operator nor the configured
      tags use is not there: the Eip's name, its namespace, the pod or the node selector, and the display name. */
  lemma EveryTagReadsBack(defaults: seq<Tag>, uid: string, name: string, selector: Selector, text: string,
                          cluster: string, namespace: string, key: string)
    requires forall i :: 0 <= i < |defaults| ==> defaults[i].key != Some(key)
    ensures TagOf(Some(AllocateTags(defaults, uid, name, selector, text, cluster, namespace)), key)
              == OwnTag(key, uid, name, selector, text, cluster, namespace)
  {
    DistinctKeys();
    var own := AllocateTags([], uid, name, selector, text, cluster, namespace);
    assert AllocateTags(defaults, uid, name, selector, text, cluster, namespace) == defaults + own;
    GetTagAfter(defaults, own, key);
    GetTagSteps(own, key);
  }

  /** The lookup goes through the tags one by one. */
  lemma GetTagSteps(tags: seq<Tag>, key: string)
    ensures |tags| == 6 ==>
              GetTag(tags, key) ==
                if tags[0].key == Some(key) then tags[0].value
                else if tags[1].key == Some(key) then tags[1].value
                else if tags[2].key == Some(key) then tags[2].value
                else if tags[3].key == Some(key) then tags[3].value
                else if tags[4].key == Some(key) then tags[4].value
                else if tags[5].key == Some(key) then tags[5].value else None
  {
    if |tags| == 6 {
      assert tags[6..] == [];
      GetTagAt(tags, key, 5);
      GetTagAt(tags, key, 4);
      GetTagAt(tags, key, 3);
      GetTagAt(tags, key, 2);
      GetTagAt(tags, key, 1);
      GetTagAt(tags, key, 0);
      assert tags[0..] == tags;
    }
  }

  lemma GetTagAt(tags: seq<Tag>, key: string, i: nat)
    requires i < |tags|
    ensures GetTag(tags[i..], key) == if tags[i].key == Some(key) then tags[i].value else GetTag(tags[i + 1..], key)
  {
    assert tags[i..][0] == tags[i] && tags[i..][1..] == tags[i + 1..];
  }

  /** The keys differ at the character named, or in length. */
  lemma DistinctKeys()
    ensures EIP_UID_TAG != NAMESPACE_TAG && EIP_UID_TAG != CLUSTER_NAME_TAG && NAMESPACE_TAG != CLUSTER_NAME_TAG
    ensures forall k :: k in [EIP_NAME_TAG, POD_NAME_TAG, NODE_SELECTOR_TAG, NAME_TAG] ==>
              k != NAMESPACE_TAG && k != CLUSTER_NAME_TAG
    ensures LEGACY_CLUSTER_NAME_TAG !in [EIP_UID_TAG, EIP_NAME_TAG, NAMESPACE_TAG, CLUSTER_NAME_TAG, POD_NAME_TAG,
                                         NODE_SELECTOR_TAG, NAME_TAG]
  {
    assert EIP_UID_TAG[22] == 'e' && EIP_NAME_TAG[22] == 'e' && NAMESPACE_TAG[22] == 'n' && CLUSTER_NAME_TAG[22] == 'c';
    assert POD_NAME_TAG[22] == 'p' && NODE_SELECTOR_TAG[23] == 'o' && NAMESPACE_TAG[23] == 'a'
           && NODE_SELECTOR_TAG[22] == 'n';
    assert LEGACY_CLUSTER_NAME_TAG[4] == 'a' && EIP_UID_TAG[4] == 'm' && EIP_NAME_TAG[4] == 'm'
           && NAMESPACE_TAG[4] == 'm';
    assert CLUSTER_NAME_TAG[4] == 'm' && POD_NAME_TAG[4] == 'm' && NODE_SELECTOR_TAG[4] == 'm' && |NAME_TAG| == 4;
  }

  // ---- The sweep ----

  datatype TaggedAddress = TaggedAddress(tags: Option<seq<Tag>>, association: Option<nat>)

  /** The addresses the sweep lists: those of the cluster, and of the namespace if the operator is confined
      to one, and those with the legacy tag of the cluster, of whatever namespace. */
  predicate Listed(a: TaggedAddress, cluster: string, namespace: Option<string>) {
    HasTag(a.tags, CLUSTER_NAME_TAG, cluster) && (namespace.Some? ==> HasTag(a.tags, NAMESPACE_TAG, namespace.value))
  }

  predicate ListedAsLegacy(a: TaggedAddress, cluster: string) {
    HasTag(a.tags, LEGACY_CLUSTER_NAME_TAG, cluster)
  }

  predicate InScope(a: TaggedAddress, cluster: string, namespace: Option<string>) {
    Listed(a, cluster, namespace) || ListedAsLegacy(a, cluster)
  }

  predicate Orphaned(a: TaggedAddress, uids: set<string>) {
    TagOf(a.tags, EIP_UID_TAG).None? || TagOf(a.tags, EIP_UID_TAG).value !in uids
  }

  /** The uids of the Eips in the operator's namespace, or of all. */
  function Uids(eips: map<Key, string>, namespace: Option<string>): set<string> {
    set key | key in eips && (namespace.Some? ==> key.ns == namespace.value) :: eips[key]
  }

  predicate OwnAssociations(addresses: map<nat, TaggedAddress>) {
    forall x, y ::
      && x in addresses && y in addresses
      && addresses[x].association.Some? && addresses[x].association == addresses[y].association
      ==> x == y
  }

  /** What is left when the listed orphans are gone. */
  function Without(addresses: map<nat, TaggedAddress>, listed: seq<nat>, uids: set<string>): map<nat, TaggedAddress> {
    map x | x in addresses && !(x in listed && Orphaned(addresses[x], uids)) :: addresses[x]
  }

  /** The addresses that the operator may keep: those out of scope and those of Eips that exist. */
  function Kept(addresses: map<nat, TaggedAddress>, cluster: string, namespace: Option<string>,
                uids: set<string>): map<nat, TaggedAddress> {
    map x | x in addresses && !(InScope(addresses[x], cluster, namespace) && Orphaned(addresses[x], uids)) ::
        addresses[x]
  }

  /** An orphan carries both cluster tags. */
  predicate TwiceTagged(addresses: map<nat, TaggedAddress>, cluster: string, namespace: Option<string>,
                        uids: set<string>) {
    exists x :: x in addresses && Orphaned(addresses[x], uids)
      && Listed(addresses[x], cluster, namespace) && ListedAsLegacy(addresses[x], cluster)
  }

  /** An orphan is listed twice. */
  predicate TwiceListed(addresses: map<nat, TaggedAddress>, listed: seq<nat>, uids: set<string>) {
    exists j, k :: 0 <= j < k < |listed| && listed[j] == listed[k] && listed[k] in addresses
        && Orphaned(addresses[listed[k]], uids)
  }

  /** Addresses that stay as they are. */
  predicate Spared(before: map<nat, TaggedAddress>, after: map<nat, TaggedAddress>, listed: seq<nat>,
                   uids: set<string>) {
    && after.Keys <= before.Keys
    && forall x :: x in before && !(x in listed && Orphaned(before[x], uids)) ==> x in after && after[x] == before[x]
  }

  class Ec2 {
    var addresses: map<nat, TaggedAddress>
    var next: nat
    const reliable: bool

    /** Allocation ids are not given out twice. */
    ghost predicate Valid()
      reads this
    {
      forall x :: x in addresses ==> x < next
    }

    constructor (reliable: bool)
      ensures Valid() && addresses == map[] && this.reliable == reliable
    {
      addresses := map[];
      next := 0;
      this.reliable := reliable;
    }

    method AllocateAddress(uid: string, name: string, selector: Selector, selectorText: string, cluster: string,
                           namespace: string, defaults: seq<Tag>)
      returns (r: Result<nat>)
      requires Valid()
      modifies this
      ensures Valid()
      ensures r.Ok? ==> r.value !in old(addresses) && addresses == old(addresses)[
                          r.value := TaggedAddress(Some(AllocateTags(defaults, uid, name, selector, selectorText,
                                                                     cluster, namespace)), None)]
      ensures r.Err? ==> addresses == old(addresses) && !reliable
    {
      var fails: bool := *;
      if !reliable && fails {
        return Err(CallFailed);
      }
      var tags := defaults;
      tags := tags + [NewTag(EIP_UID_TAG, uid)];
      tags := tags + [NewTag(EIP_NAME_TAG, name)];
      tags := tags + [NewTag(NAMESPACE_TAG, namespace)];
      tags := tags + [NewTag(CLUSTER_NAME_TAG, cluster)];
      match selector {
        case PodSelector(podName) => tags := tags + [NewTag(POD_NAME_TAG, podName)];
        case NodeSelector(_) => tags := tags + [NewTag(NODE_SELECTOR_TAG, selectorText)];
      }
      tags := tags + [NewTag(NAME_TAG, "eip-operator:" + cluster + ":" + namespace + ":" + name)];
      assert tags == AllocateTags(defaults, uid, name, selector, selectorText, cluster, namespace);
      r := Ok(next);
      addresses := addresses[next := TaggedAddress(Some(tags), None)];
      next := next + 1;
    }

    method Describe(wanted: set<nat>) returns (r: Result<seq<nat>>)
      ensures r.Ok? ==> forall x :: x in r.value <==> x in wanted
      ensures r.Ok? ==> forall i, j :: 0 <= i < j < |r.value| ==> r.value[i] != r.value[j]
      ensures r.Err? ==> !reliable
    {
      var fails: bool := *;
      if !reliable && fails {
        return Err(CallFailed);
      }
      var listed: seq<nat> := [];
      var rest := wanted;
      while rest != {}
        invariant rest <= wanted
        invariant forall x :: x in listed <==> x in wanted && x !in rest
        invariant forall i, j :: 0 <= i < j < |listed| ==> listed[i] != listed[j]
        decreases rest
      {
        var x :| x in rest;
        rest := rest - {x};
        listed := listed + [x];
      }
      return Ok(listed);
    }

    method DisassociateEip(association: nat) returns (r: Result<()>)
      modifies this
      ensures next == old(next)
      ensures r.Ok? ==> addresses == Disassociated(old(addresses), association)
      ensures r.Err? ==> addresses == old(addresses) && !reliable
    {
      var fails: bool := *;
      if !reliable && fails {
        return Err(CallFailed);
      }
      addresses := Disassociated(addresses, association);
      return Ok(());
    }

    method ReleaseAddress(alloc: nat) returns (r: Result<()>)
      modifies this
      ensures next == old(next)
      ensures r.Ok? ==> alloc in old(addresses) && addresses == old(addresses) - {alloc}
      ensures r.Err? ==> addresses == old(addresses)
      ensures r.Ok? ==> old(addresses)[alloc].association.None?
      ensures reliable && alloc in old(addresses) && old(addresses)[alloc].association.None? ==> r.Ok?
    {
      var fails: bool := *;
      if !reliable && fails {
        return Err(CallFailed);
      }
      if alloc !in addresses {
        return Err(NotFound);
      }
      if addresses[alloc].association.Some? {
        return Err(AddressInUse);
      }
      addresses := addresses - {alloc};
      return Ok(());
    }

    /** Disassociate the address if the listing showed an association, then release it. */
    method DisassociateAndRelease(alloc: nat, association: Option<nat>) returns (r: Result<()>)
      modifies this
      ensures next == old(next)
      ensures r.Ok? ==> alloc in old(addresses)
                          && addresses == (if association.Some? then Disassociated(old(addresses), association.value)
                                           else old(addresses)) - {alloc}
      ensures r.Err? ==> addresses == old(addresses)
                           || (association.Some? && addresses == Disassociated(old(addresses), association.value))
      ensures reliable && alloc in old(addresses) && (old(addresses)[alloc].association == association) ==> r.Ok?
    {
      if association.Some? {
        var gone := DisassociateEip(association.value);
        if gone.Err? {
          return gone;
        }
      }
      r := ReleaseAddress(alloc);
    }

    /** Release the orphans among the listed addresses, in turn. An orphan listed twice is released twice,
        and the second release fails. */
    method ReleaseOrphans(listed: seq<nat>, uids: set<string>) returns (r: Result<()>)
      requires OwnAssociations(addresses) && forall i :: 0 <= i < |listed| ==> listed[i] in addresses
      modifies this
      ensures next == old(next)
      ensures Spared(old(addresses), addresses, listed, uids)
      ensures r.Ok? ==> addresses == Without(old(addresses), listed, uids)
      ensures r.Ok? ==> !TwiceListed(old(addresses), listed, uids)
      ensures reliable && !TwiceListed(old(addresses), listed, uids) ==> r.Ok?
    {
      var snapshot := addresses;
      assert listed[..0] == [];
      for i := 0 to |listed|
        invariant next == old(next) && addresses == Without(snapshot, listed[..i], uids)
        invariant !TwiceListed(snapshot, listed[..i], uids)
      {
        var x := listed[i];
        assert listed[..i + 1] == listed[..i] + [x];
        if Orphaned(snapshot[x], uids) {
          TwiceNow(snapshot, listed, i, uids);
          var released := DisassociateAndRelease(x, snapshot[x].association);
          if released.Err? {
            return released;
          }
        }
      }
      assert listed[..|listed|] == listed;
      return Ok(());
    }

    /** The sweep. Whatever happens, every address that it may keep stays as it is: those that carry neither the
        cluster's tag nor its legacy tag, those of another namespace if it is confined to one, and those of Eips.
        When it succeeds those are all that is left. When no call fails it succeeds unless an orphan carries both
        cluster tags. */
    method CleanupOrphanEips(eips: map<Key, string>, cluster: string, namespace: Option<string>) returns (r: Result<()>)
      requires OwnAssociations(addresses)
      modifies this
      ensures addresses.Keys <= old(addresses).Keys && next == old(next)
      ensures forall x :: x in Kept(old(addresses), cluster, namespace, Uids(eips, namespace)) ==>
                x in addresses && addresses[x] == old(addresses)[x]
      ensures r.Ok? ==> addresses == Kept(old(addresses), cluster, namespace, Uids(eips, namespace))
      ensures r.Ok? ==> !TwiceTagged(old(addresses), cluster, namespace, Uids(eips, namespace))
      ensures reliable && !TwiceTagged(old(addresses), cluster, namespace, Uids(eips, namespace)) ==> r.Ok?
      ensures forall x :: x in old(addresses) ==>
                var tags := old(addresses)[x].tags;
                || (!HasTag(tags, CLUSTER_NAME_TAG, cluster) && !HasTag(tags, LEGACY_CLUSTER_NAME_TAG, cluster))
                || (&& namespace.Some? && !HasTag(tags, NAMESPACE_TAG, namespace.value)
                    && !HasTag(tags, LEGACY_CLUSTER_NAME_TAG, cluster))
                || OfListedEip(tags, eips, namespace)
                || MadeInOther(tags, cluster)
                ==> x in addresses && addresses[x] == old(addresses)[x]
      ensures r.Ok? ==> forall x :: x in addresses ==>
                var tags := addresses[x].tags;
                && (HasTag(tags, LEGACY_CLUSTER_NAME_TAG, cluster) ==> OfListedEip(tags, eips, namespace))
                && (HasTag(tags, CLUSTER_NAME_TAG, cluster)
                      && (namespace.Some? ==> HasTag(tags, NAMESPACE_TAG, namespace.value)) ==>
                      OfListedEip(tags, eips, namespace))
      ensures reliable ==>
                (r.Err? <==> exists x :: x in old(addresses) &&
                               var tags := old(addresses)[x].tags;
                               && HasTag(tags, LEGACY_CLUSTER_NAME_TAG, cluster)
                               && HasTag(tags, CLUSTER_NAME_TAG, cluster)
                               && (namespace.Some? ==> HasTag(tags, NAMESPACE_TAG, namespace.value))
                               && !OfListedEip(tags, eips, namespace))
    {
      hide AllocateTags, HasTag, TagOf;
      Meanings(addresses, eips, cluster, namespace);
      var tagged := Describe(set x | x in addresses && Listed(addresses[x], cluster, namespace));
      if tagged.Err? {
        return Err(CallFailed);
      }
      var legacy := Describe(set x | x in addresses && ListedAsLegacy(addresses[x], cluster));
      if legacy.Err? {
        return Err(CallFailed);
      }
      var uids := Uids(eips, namespace);
      BothLists(addresses, tagged.value, legacy.value, cluster, namespace, uids);
      TwiceOnLists(addresses, tagged.value, legacy.value, cluster, namespace, uids);
      r := ReleaseOrphans(tagged.value + legacy.value, uids);
    }
  }

  lemma TwiceNow(addresses: map<nat, TaggedAddress>, listed: seq<nat>, i: nat, uids: set<string>)
    requires i < |listed| && listed[i] in addresses && Orphaned(addresses[listed[i]], uids)
    ensures listed[i] in listed[..i] ==> TwiceListed(addresses, listed, uids)
    ensures listed[i] !in listed[..i] && !TwiceListed(addresses, listed[..i], uids) ==>
              !TwiceListed(addresses, listed[..i + 1], uids)
  {
    if listed[i] in listed[..i] {
      var j :| 0 <= j < i && listed[..i][j] == listed[i];
      assert listed[j] == listed[i];
    }
    if TwiceListed(addresses, listed[..i + 1], uids) && listed[i] !in listed[..i] {
      var j, k :| 0 <= j < k < i + 1 && listed[..i + 1][j] == listed[..i + 1][k]
        && listed[..i + 1][k] in addresses && Orphaned(addresses[listed[..i + 1][k]], uids);
      assert listed[..i][j] == listed[j] && listed[j] in listed[..i];
      assert listed[..i][k] == listed[k];
    }
  }

  /** The two lists together hold the addresses in scope. */
  lemma BothLists(addresses: map<nat, TaggedAddress>, tagged: seq<nat>, legacy: seq<nat>, cluster: string,
                  namespace: Option<string>, uids: set<string>)
    requires forall x :: x in tagged <==> x in addresses && Listed(addresses[x], cluster, namespace)
    requires forall x :: x in legacy <==> x in addresses && ListedAsLegacy(addresses[x], cluster)
    ensures Without(addresses, tagged + legacy, uids) == Kept(addresses, cluster, namespace, uids)
    ensures forall i :: 0 <= i < |tagged + legacy| ==> (tagged + legacy)[i] in addresses
    ensures forall x :: x in addresses ==> (x in tagged + legacy <==> InScope(addresses[x], cluster, namespace))
  {
    hide Orphaned, HasTag;
    var listed := tagged + legacy;
    forall i | 0 <= i < |listed| ensures listed[i] in addresses && InScope(addresses[listed[i]], cluster, namespace) {
      assert listed[i] in tagged || listed[i] in legacy;
    }
  }

  /** An orphan is on them twice exactly when it has both tags. */
  lemma TwiceOnLists(addresses: map<nat, TaggedAddress>, tagged: seq<nat>, legacy: seq<nat>, cluster: string,
                     namespace: Option<string>, uids: set<string>)
    requires forall x :: x in tagged <==> x in addresses && Listed(addresses[x], cluster, namespace)
    requires forall x :: x in legacy <==> x in addresses && ListedAsLegacy(addresses[x], cluster)
    requires forall i, j :: 0 <= i < j < |tagged| ==> tagged[i] != tagged[j]
    requires forall i, j :: 0 <= i < j < |legacy| ==> legacy[i] != legacy[j]
    ensures TwiceListed(addresses, tagged + legacy, uids) <==> TwiceTagged(addresses, cluster, namespace, uids)
  {
    hide Orphaned, HasTag;
    var listed := tagged + legacy;
    if TwiceListed(addresses, listed, uids) {
      var j, k :| 0 <= j < k < |listed| && listed[j] == listed[k] && listed[k] in addresses
          && Orphaned(addresses[listed[k]], uids);
      assert j < |tagged| && listed[j] == tagged[j] && listed[j] in tagged;
      assert k >= |tagged| && listed[k] == legacy[k - |tagged|] && listed[k] in legacy;
    }
    if TwiceTagged(addresses, cluster, namespace, uids) {
      var x :| x in addresses && Orphaned(addresses[x], uids) && Listed(addresses[x], cluster, namespace)
          && ListedAsLegacy(addresses[x], cluster);
      assert x in tagged && x in legacy;
      var j :| 0 <= j < |tagged| && tagged[j] == x;
      var k :| 0 <= k < |legacy| && legacy[k] == x;
      assert listed[j] == x && listed[|tagged| + k] == x;
    }
  }

  function Disassociated(addresses: map<nat, TaggedAddress>, association: nat): map<nat, TaggedAddress> {
    map x | x in addresses ::
      if addresses[x].association == Some(association) then addresses[x].(association := None) else addresses[x]
  }

  // ---- What the sweep keeps ----

  /** The address carries the uid of an Eip in the operator's namespace, or of any if it is not confined. */
  ghost predicate OfListedEip(tags: Option<seq<Tag>>, eips: map<Key, string>, namespace: Option<string>) {
    exists key ::
      key in eips && (namespace.Some? ==> key.ns == namespace.value) && TagOf(tags, EIP_UID_TAG) == Some(eips[key])
  }

  /** The address was allocated by the operator of another cluster. */
  ghost predicate MadeInOther(tags: Option<seq<Tag>>, cluster: string) {
    exists defaults, uid, name, selector, text, other, ns ::
      && AvoidsReserved(defaults) && other != cluster
      && tags == Some(AllocateTags(defaults, uid, name, selector, text, other, ns))
  }

  lemma OthersCarryNoTag(tags: Option<seq<Tag>>, cluster: string)
    ensures MadeInOther(tags, cluster) ==>
              !HasTag(tags, CLUSTER_NAME_TAG, cluster) && !HasTag(tags, LEGACY_CLUSTER_NAME_TAG, cluster)
  {
    hide AllocateTags, HasTag;
    if MadeInOther(tags, cluster) {
      var defaults, uid, name, selector, text, other, ns :|
        && AvoidsReserved(defaults) && other != cluster
        && tags == Some(AllocateTags(defaults, uid, name, selector, text, other, ns));
      AllocatedTags(defaults, uid, name, selector, text, other, ns);
    }
  }

  /** The addresses the sweep may keep, and the orphans, in terms of tags. */
  lemma Meanings(addresses: map<nat, TaggedAddress>, eips: map<Key, string>, cluster: string,
                 namespace: Option<string>)
    ensures forall x :: x in addresses ==>
              && (Orphaned(addresses[x], Uids(eips, namespace)) <==> !OfListedEip(addresses[x].tags, eips, namespace))
              && (MadeInOther(addresses[x].tags, cluster) ==>
                    && !HasTag(addresses[x].tags, CLUSTER_NAME_TAG, cluster)
                    && !HasTag(addresses[x].tags, LEGACY_CLUSTER_NAME_TAG, cluster))
  {
    hide HasTag, TagOf, MadeInOther;
    forall x | x in addresses
      ensures MadeInOther(addresses[x].tags, cluster) ==>
                && !HasTag(addresses[x].tags, CLUSTER_NAME_TAG, cluster)
                && !HasTag(addresses[x].tags, LEGACY_CLUSTER_NAME_TAG, cluster)
    {
      OthersCarryNoTag(addresses[x].tags, cluster);
    }
  }

  /** The address was made for an Eip that exists. */
  ghost predicate MadeFor(a: TaggedAddress, eips: map<Key, string>, key: Key) {
    && key in eips && a.tags.Some?
    && exists defaults, selector, text, cluster :: AvoidsReserved(defaults)
         && a.tags.value == AllocateTags(defaults, eips[key], key.name, selector, text, cluster, key.ns)
  }

  /** Whether it is confined to a namespace or not, and whatever cluster the address is of, the sweep keeps it. */
  lemma LiveAddressIsKept(addresses: map<nat, TaggedAddress>, x: nat, eips: map<Key, string>, key: Key,
                          cluster: string, namespace: Option<string>)
    requires x in addresses && MadeFor(addresses[x], eips, key)
    ensures x in Kept(addresses, cluster, namespace, Uids(eips, namespace))
  {
    var a := addresses[x];
    var defaults, selector, text, own :| AvoidsReserved(defaults)
        && a.tags.value == AllocateTags(defaults, eips[key], key.name, selector, text, own, key.ns);
    AllocatedTags(defaults, eips[key], key.name, selector, text, own, key.ns);
    assert a.tags == Some(AllocateTags(defaults, eips[key], key.name, selector, text, own, key.ns));
    if namespace.None? || namespace.value == key.ns {
      assert eips[key] in Uids(eips, namespace);
    }
  }

  /** Everything in scope that is kept is tagged with the uid of a listed Eip. */
  lemma KeptIsLive(addresses: map<nat, TaggedAddress>, x: nat, eips: map<Key, string>, cluster: string,
                   namespace: Option<string>)
    requires x in Kept(addresses, cluster, namespace, Uids(eips, namespace))
    requires InScope(addresses[x], cluster, namespace)
    ensures exists key ::
              key in eips && (namespace.Some? ==> key.ns == namespace.value)
              && TagOf(addresses[x].tags, EIP_UID_TAG) == Some(eips[key])
  {
  }

  /** A second sweep over the same Eips finds nothing to do. */
  lemma SweptIsClean(addresses: map<nat, TaggedAddress>, eips: map<Key, string>, cluster: string,
                     namespace: Option<string>)
    ensures var kept := Kept(addresses, cluster, namespace, Uids(eips, namespace));
            Kept(kept, cluster, namespace, Uids(eips, namespace)) == kept
                && !TwiceTagged(kept, cluster, namespace, Uids(eips, namespace))
  {
  }
}
