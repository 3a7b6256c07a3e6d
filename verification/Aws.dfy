/**
 The part of AWS EC2 the operator uses. Allocation and association ids are never given out twice;
 `issued` and `minted` remember which Eip uid and which address each id was given out for.
 */
module Aws {
  import opened Base

  datatype Cloud = Cloud(addrs: map<nat, Address>, next: nat, issued: map<nat, nat>, minted: map<nat, nat>)

  const EMPTY := Cloud(map[], 0, map[], map[])

  /** The new address's allocation id is `a.next`. */
  function Allocate(a: Cloud, uid: nat, ns: string, publicIp: string): Cloud {
    a.(addrs := a.addrs[a.next := Address(uid, ns, publicIp, None)],
       issued := a.issued[a.next := uid], next := a.next + 1)
  }

  /** The new association's id is `a.next`. Reassociation is allowed: the address leaves the place it had,
      and any other address at that interface and private IP is displaced. */
  function Associate(a: Cloud, alloc: nat, eni: string, ip: string): Cloud
    requires alloc in a.addrs
  {
    a.(addrs := map x | x in a.addrs ::
         if x == alloc then a.addrs[x].(association := Some(Association(a.next, eni, ip)))
         else if a.addrs[x].At(eni, ip) then a.addrs[x].(association := None)
         else a.addrs[x],
       minted := a.minted[a.next := alloc], next := a.next + 1)
  }

  predicate Names(a: Address, association: nat) {
    a.association.Some? && a.association.value.id == association
  }

  /** An id that is not in use is reported as not found, which the operator takes for success. */
  function Disassociate(a: Cloud, association: nat): Cloud {
    a.(addrs := map x | x in a.addrs ::
         if Names(a.addrs[x], association) then a.addrs[x].(association := None) else a.addrs[x])
  }

  function Release(a: Cloud, alloc: nat): Result<Cloud> {
    if alloc !in a.addrs then Err(NotFound)
    else if a.addrs[alloc].association.Some? then Err(AddressInUse)
    else Ok(a.(addrs := a.addrs - {alloc}))
  }

  /** `found` is some order in which the addresses tagged with `uid` may be listed. */
  predicate Tagged(a: Cloud, uid: nat, found: seq<nat>) {
    && (forall i :: 0 <= i < |found| ==> found[i] in a.addrs && a.addrs[found[i]].uid == uid)
    && (forall i, j :: 0 <= i < j < |found| ==> found[i] != found[j])
    && (forall x :: x in a.addrs && a.addrs[x].uid == uid ==> x in found)
  }

  function AssociationOf(a: Address): Option<nat> {
    if a.association.Some? then Some(a.association.value.id) else None
  }
}
