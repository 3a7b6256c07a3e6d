/**
 The two services the controllers call. A service that is not `reliable` may refuse any call, and then
 nothing has happened.
 */
module Services {
  import opened Base
  import Kube
  import Aws
  import Eni

  /** The answer to a write whose outcome the store determines: that outcome, or a failed call, or a
      conflict with a write that someone else made in the meantime. */
  ghost predicate Answered(before: Kube.Store, outcome: Result<Kube.Store>, after: Kube.Store, r: Result<()>,
                           reliable: bool) {
    || (r.Ok? && outcome.Ok? && after == outcome.value)
    || (r.Err? && after == before && outcome.Err? && r.error == outcome.error)
    || (!reliable && r.Err? && (r.error == CallFailed || r.error == Conflict) && after == before)
  }

  class ApiServer {
    var store: Kube.Store
    /** What every write was answered, in turn. */
    ghost var answers: seq<Result<()>>
    const reliable: bool

    constructor (reliable: bool)
      ensures store == Kube.EMPTY && this.reliable == reliable && answers == []
    {
      this.reliable := reliable;
      store := Kube.EMPTY;
      answers := [];
    }

    method ListEips(ns: string) returns (r: Result<seq<Key>>)
      ensures r.Ok? ==> Kube.Lists(store, ns, r.value)
      ensures r.Err? ==> !reliable && r.error == CallFailed
    {
      var fails: bool := *;
      if !reliable && fails {
        return Err(CallFailed);
      }
      var keys: seq<Key> := [];
      var rest := set key | key in store.eips && key.ns == ns;
      while rest != {}
        invariant forall key :: key in rest ==> key in store.eips && key.ns == ns
        invariant forall key :: key in store.eips && key.ns == ns ==> key in rest || key in keys
        invariant forall i :: 0 <= i < |keys| ==> keys[i] in store.eips && keys[i].ns == ns && keys[i] !in rest
        invariant forall i, j :: 0 <= i < j < |keys| ==> keys[i] != keys[j]
        decreases rest
      {
        var key :| key in rest;
        rest := rest - {key};
        keys := keys + [key];
      }
      return Ok(keys);
    }

    /** The names of the pods or nodes that an Eip's listing returns. */
    method ListResources(e: Eip) returns (r: Result<set<string>>)
      ensures r.Ok? ==> r.value == Kube.Resources(store, e)
      ensures r.Err? ==> !reliable
    {
      var fails: bool := *;
      if !reliable && fails {
        return Err(CallFailed);
      }
      return Ok(Kube.Resources(store, e));
    }

    /** The nodes of those names, as they are now, in some order. */
    method ListNodes(wanted: set<string>) returns (r: Result<seq<Node>>)
      requires wanted <= store.nodes.Keys
      ensures r.Ok? ==> |r.value| == |wanted|
      ensures r.Ok? ==> forall n :: n in wanted ==> store.nodes[n] in r.value
      ensures r.Ok? ==> forall i :: 0 <= i < |r.value| ==> exists n :: n in wanted && store.nodes[n] == r.value[i]
      ensures r.Err? ==> !reliable && r.error == CallFailed
    {
      var fails: bool := *;
      if !reliable && fails {
        return Err(CallFailed);
      }
      var listed: seq<Node> := [];
      var rest := wanted;
      while rest != {}
        invariant rest <= wanted && |listed| + |rest| == |wanted|
        invariant forall n :: n in wanted && n !in rest ==> store.nodes[n] in listed
        invariant forall i :: 0 <= i < |listed| ==> exists n :: n in wanted && store.nodes[n] == listed[i]
        decreases rest
      {
        var n :| n in rest;
        rest := rest - {n};
        listed := listed + [store.nodes[n]];
      }
      return Ok(listed);
    }

    method GetNode(name: string) returns (r: Result<Node>)
      ensures r.Ok? ==> name in store.nodes && r.value == store.nodes[name]
      ensures r.Err? && reliable ==> name !in store.nodes && r.error == NotFound
    {
      var fails: bool := *;
      if !reliable && fails {
        return Err(CallFailed);
      }
      return if name in store.nodes then Ok(store.nodes[name]) else Err(NotFound);
    }

    /** Make a write, unless the call fails. */
    method Write(outcome: Result<Kube.Store>) returns (r: Result<()>)
      modifies this
      ensures Answered(old(store), outcome, store, r, reliable) && answers == old(answers) + [r]
    {
      var fails: bool := *;
      if !reliable && fails {
        var overtaken: bool := *;
        r := Err(if overtaken then Conflict else CallFailed);
      } else {
        match outcome {
          case Ok(k) => store := k; r := Ok(());
          case Err(e) => r := Err(e);
        }
      }
      answers := answers + [r];
    }
  }

  class Ec2 {
    var cloud: Aws.Cloud
    const instances: map<string, Eni.Description>
    const reliable: bool

    constructor (instances: map<string, Eni.Description>, reliable: bool)
      ensures cloud == Aws.EMPTY && this.instances == instances && this.reliable == reliable
    {
      this.instances := instances;
      this.reliable := reliable;
      cloud := Aws.EMPTY;
    }

    method AllocateAddress(uid: nat, ns: string) returns (r: Result<(nat, string)>)
      modifies this
      ensures r.Ok? ==> r.value.0 == old(cloud).next && cloud == Aws.Allocate(old(cloud), uid, ns, r.value.1)
      ensures r.Err? ==> cloud == old(cloud) && !reliable && r.error == CallFailed
    {
      var fails: bool := *;
      if !reliable && fails {
        return Err(CallFailed);
      }
      var publicIp: string := *;
      r := Ok((cloud.next, publicIp));
      cloud := Aws.Allocate(cloud, uid, ns, publicIp);
    }

    method DescribeAddress(alloc: nat) returns (r: Result<Address>)
      ensures r.Ok? ==> alloc in cloud.addrs && r.value == cloud.addrs[alloc]
      ensures r.Err? && reliable ==> alloc !in cloud.addrs && r.error == NotFound
    {
      var fails: bool := *;
      if !reliable && fails {
        return Err(CallFailed);
      }
      return if alloc in cloud.addrs then Ok(cloud.addrs[alloc]) else Err(NotFound);
    }

    method DescribeTagged(uid: nat) returns (r: Result<seq<nat>>)
      ensures r.Ok? ==> Aws.Tagged(cloud, uid, r.value)
      ensures r.Err? ==> !reliable && r.error == CallFailed
    {
      var fails: bool := *;
      if !reliable && fails {
        return Err(CallFailed);
      }
      var found: seq<nat> := [];
      var rest := set x | x in cloud.addrs && cloud.addrs[x].uid == uid;
      while rest != {}
        invariant forall x :: x in rest ==> x in cloud.addrs && cloud.addrs[x].uid == uid
        invariant forall x :: x in cloud.addrs && cloud.addrs[x].uid == uid ==> x in rest || x in found
        invariant forall i :: 0 <= i < |found| ==>
                    found[i] in cloud.addrs && cloud.addrs[found[i]].uid == uid && found[i] !in rest
        invariant forall i, j :: 0 <= i < j < |found| ==> found[i] != found[j]
        decreases rest
      {
        var x :| x in rest;
        rest := rest - {x};
        found := found + [x];
      }
      return Ok(found);
    }

    method AssociateEip(alloc: nat, eni: string, ip: string) returns (r: Result<nat>)
      modifies this
      ensures r.Ok? ==>
                alloc in old(cloud).addrs && r.value == old(cloud).next
                    && cloud == Aws.Associate(old(cloud), alloc, eni, ip)
      ensures r.Err? ==> cloud == old(cloud) && (reliable ==> alloc !in cloud.addrs)
      ensures r == Err(NotFound) ==> alloc !in cloud.addrs
      ensures r.Err? ==> r.error == NotFound || r.error == CallFailed
    {
      var fails: bool := *;
      if !reliable && fails {
        return Err(CallFailed);
      }
      if alloc !in cloud.addrs {
        return Err(NotFound);
      }
      r := Ok(cloud.next);
      cloud := Aws.Associate(cloud, alloc, eni, ip);
    }

    /** An association that is already gone counts as removed. */
    method DisassociateEip(association: nat) returns (r: Result<()>)
      modifies this
      ensures r.Ok? ==> cloud == Aws.Disassociate(old(cloud), association)
      ensures r.Err? ==> cloud == old(cloud) && !reliable
    {
      var fails: bool := *;
      if !reliable && fails {
        return Err(CallFailed);
      }
      cloud := Aws.Disassociate(cloud, association);
      return Ok(());
    }

    method ReleaseAddress(alloc: nat) returns (r: Result<()>)
      modifies this
      ensures r.Ok? ==> Aws.Release(old(cloud), alloc) == Ok(cloud)
      ensures r.Err? ==> cloud == old(cloud) && (r == Err(CallFailed) || Aws.Release(cloud, alloc).Err?)
      ensures r == Err(CallFailed) ==> !reliable
    {
      var fails: bool := *;
      if !reliable && fails {
        return Err(CallFailed);
      }
      match Aws.Release(cloud, alloc) {
        case Ok(a) => cloud := a; return Ok(());
        case Err(e) => return Err(e);
      }
    }

    /** The first interface of the instance that has the private IP, as far as its description tells. When the
        call does not fail there is no answer only if no interface is known to have it. */
    method FindInterface(instance: string, ip: string) returns (r: Result<string>)
      ensures r.Ok? ==> InterfaceOf(instances, instance, ip) == Some(r.value)
      ensures r.Ok? ==> instance in instances && Eni.IsFirstOwner(Eni.FirstNics(instances[instance]), ip, r.value)
      ensures r.Err? && reliable ==> InterfaceOf(instances, instance, ip) == None && r.error == NoInterfaceWithThatIp
      ensures r.Err? && reliable ==>
                || instance !in instances || Eni.HasEmptyList(instances[instance])
                || forall nic :: nic in Eni.FirstNics(instances[instance]) ==> !Eni.Owns(nic, ip)
    {
      var fails: bool := *;
      if !reliable && fails {
        return Err(CallFailed);
      }
      if instance !in instances {
        return Err(NoInterfaceWithThatIp);
      }
      Eni.FromPrivateIpIsFirstOwner(instances[instance], ip);
      var found := Eni.FromPrivateIp(instances[instance], ip);
      return if found.Answer? && found.eni.Some? then Ok(found.eni.value) else Err(NoInterfaceWithThatIp);
    }
  }

  function InterfaceOf(instances: map<string, Eni.Description>, instance: string, ip: string): Option<string> {
    if instance !in instances then None
    else
      var found := Eni.FromPrivateIp(instances[instance], ip);
      if found.Answer? then found.eni else None
  }

  /** The interface is the first of the instance that has the private IP. */
  lemma InterfaceOwns(instances: map<string, Eni.Description>, instance: string, ip: string)
    ensures InterfaceOf(instances, instance, ip).Some? ==>
              && instance in instances
              && Eni.IsFirstOwner(Eni.FirstNics(instances[instance]), ip, InterfaceOf(instances, instance, ip).value)
    ensures InterfaceOf(instances, instance, ip).None? ==>
              || instance !in instances || Eni.HasEmptyList(instances[instance])
              || forall nic :: nic in Eni.FirstNics(instances[instance]) ==> !Eni.Owns(nic, ip)
  {
    if instance in instances {
      Eni.FromPrivateIpIsFirstOwner(instances[instance], ip);
    }
  }
}
