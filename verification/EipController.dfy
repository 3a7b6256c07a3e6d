/** The Eip controller: `Apply` gives an Eip its address and checks its claim, `Cleanup` releases the address. */
module EipController {
  import opened Base
  import opened Protocol
  import opened Atomic
  import opened Uninterrupted
  import opened ReconcileCalls
  import opened Services
  import opened Detaching
  import Kube
  import Aws

  class Controller {
    const api: ApiServer
    const ec2: Ec2

    constructor (api: ApiServer, ec2: Ec2)
      ensures this.api == api && this.ec2 == ec2
    {
      this.api := api;
      this.ec2 := ec2;
    }

    /** The reconcile is a run of the transition system from `s` to the stores it leaves, whatever calls
        fail. When it succeeds, or no call fails, it has done what `EipApplied` says. `asked` are the resources
        it asks to reconcile: all that match, unless one of them has the Eip. When no call fails it succeeds, if the
        object is still there and has at most one address, and, to withdraw a claim, exactly if the copy is current
        and the status names that address already: then recording the address again does not overtake it. A claim
        that cannot be withdrawn makes it fail. */
    method Apply(e: Eip, ghost c: Config, ghost s: State)
      returns (r: Result<Action>, asked: set<string>, ghost run: seq<Step>, ghost found: seq<nat>,
               ghost publicIp: string)
      requires Start(c, s, StartEip(e)).Some? && !e.deleting
      requires s.kube == api.store && s.aws == ec2.cloud && Keyed(s.kube)
      modifies api, ec2
      ensures RunsTo(c, s, run, NotedEip(s, e).(kube := api.store, aws := ec2.cloud))
      ensures r.Ok? ==> r == Ok(Await)
      ensures r.Ok? || (api.reliable && ec2.reliable) ==>
                && Aws.Tagged(s.aws, e.uid, found)
                && NotedEip(s, e).(kube := api.store, aws := ec2.cloud) ==
                     EipApplied(NotedEip(s, e), e, found, publicIp)
      ensures r.Ok? ==> asked == if Settled(s, e) then {} else Kube.Resources(s.kube, e)
      ensures r.Ok? && Misclaimed(s.kube, e) ==> Withdrawn(api.store, e) && NoneHas(ec2.cloud, e.AssociationId())
      ensures r.Ok? && !Misclaimed(s.kube, e) ==>
                && NamesAddress(api.store, e.key, FoundAddress(s.aws, found), publicIp)
                && FoundAddress(s.aws, found) in ec2.cloud.addrs
                && ec2.cloud.addrs[FoundAddress(s.aws, found)].uid == e.uid
                && ec2.cloud.addrs[FoundAddress(s.aws, found)].publicIp == publicIp
      ensures OnlyEip(s.kube, api.store, e.key)
      ensures s.aws.next !in s.aws.addrs ==> OnlyAdds(s.aws, ec2.cloud, e)
      ensures api.reliable && ec2.reliable && |found| > 1 ==> r == Err(MultipleEipsTaggedForPod)
      ensures api.reliable && ec2.reliable && |found| <= 1 && e.key !in s.kube.eips ==> r == Err(NotFound)
      ensures api.reliable && ec2.reliable && |found| <= 1 && e.key in s.kube.eips ==>
                var timely := Fresh(s, e) && NamesAddress(s.kube, e.key, FoundAddress(s.aws, found), publicIp);
                && (!Misclaimed(s.kube, e) || timely ==> r == Ok(Await))
                && (Misclaimed(s.kube, e) && !timely && e.version < s.kube.next ==> r == Err(Conflict))
      ensures r == Err(MultipleEipsTaggedForPod) ==> |found| > 1 && Aws.Tagged(s.aws, e.uid, found)
    {
      hide RunTask, Start, RunsTo, Reaches, Checked, Kube.WriteStatus, OnlyAssociation, NoneHas, OnlyEip, OnlyAdds,
           Withdrawn, NamesAddress, Kube.Resources;
      SameEip(s.kube, e.key);
      OnlyAddsOne(s.aws, s.aws, s.aws, e);
      asked, publicIp, found := {}, "", [];
      run := EipStarts(c, s, e);
      ghost var m, o := NotedEip(s, e), EipOwner(e.key);
      var address;
      address, run, found := FindOrAllocate(e, c, s, m, run);
      if address.Err? {
        return Err(address.error), asked, run, found, publicIp;
      }
      m := m.(aws := ec2.cloud);
      var alloc, ip := address.value.0, address.value.1;
      publicIp := ip;
      RecordingIs(s.kube, e, alloc, ip);
      OnlyAddsOne(s.aws, ec2.cloud, ec2.cloud, e);
      var created := api.Write(Kube.SetStatusCreated(api.store, e.key, alloc, ip));
      if created.Err? {
        run := Abort(c, s, run, m, o, EipRecord(e, alloc, ip));
        return Err(created.error), asked, run, found, publicIp;
      }
      run := Records(c, s, run, m, e, alloc, ip, api.store);
      m := m.(kube := api.store);
      r, asked, run := Check(e, c, s, m, run);
      OnlyAddsOne(s.aws, m.aws, ec2.cloud, e);
      OnlyEipOn(s.kube, m.kube, api.store, e);
      AddressHolds(m.aws, ec2.cloud, e, alloc);
    }

    /** The address tagged with the Eip's uid, or a new one. */
    method FindOrAllocate(e: Eip, ghost c: Config, ghost s: State, ghost m: State, ghost run: seq<Step>)
      returns (r: Result<(nat, string)>, ghost run': seq<Step>, ghost found: seq<nat>)
      requires m.aws == ec2.cloud && Reaches(c, s, run, m, EipOwner(e.key), EipDescribe(e))
      modifies ec2
      ensures r.Ok? || ec2.reliable ==> Aws.Tagged(m.aws, e.uid, found)
      ensures r.Ok? ==>
                |found| <= 1 && Reaches(c, s, run', m.(aws := ec2.cloud), EipOwner(e.key),
                                        EipRecord(e, r.value.0, r.value.1))
      ensures r.Ok? && found == [] ==>
                r.value.0 == m.aws.next && ec2.cloud == Aws.Allocate(m.aws, e.uid, e.key.ns, r.value.1)
      ensures r.Ok? && found != [] ==> r.value == (found[0], m.aws.addrs[found[0]].publicIp) && ec2.cloud == m.aws
      ensures r.Err? ==> RunsTo(c, s, run', m) && ec2.cloud == m.aws
      ensures ec2.reliable ==> (r.Err? <==> |found| > 1) && (r.Err? ==> r == Err(MultipleEipsTaggedForPod))
      ensures r == Err(MultipleEipsTaggedForPod) ==> |found| > 1 && Aws.Tagged(m.aws, e.uid, found)
    {
      hide RunTask, RunsTo, Reaches;
      found := [];
      ghost var o := EipOwner(e.key);
      var tagged := ec2.DescribeTagged(e.uid);
      if tagged.Err? {
        run' := Abort(c, s, run, m, o, EipDescribe(e));
        return Err(tagged.error), run', found;
      }
      found := tagged.value;
      if |tagged.value| == 0 {
        run' := FindsNone(c, s, run, m, e);
        var bought := ec2.AllocateAddress(e.uid, e.key.ns);
        if bought.Err? {
          run' := Abort(c, s, run', m, o, EipAllocate(e));
          return Err(bought.error), run', found;
        }
        run' := Allocates(c, s, run', m, e, bought.value.1);
        return Ok(bought.value), run', found;
      }
      if |tagged.value| == 1 {
        run' := FindsOne(c, s, run, m, e, found);
        return Ok((tagged.value[0], ec2.cloud.addrs[tagged.value[0]].publicIp)), run', found;
      }
      run' := Abort(c, s, run, m, o, EipDescribe(e));
      return Err(MultipleEipsTaggedForPod), run', found;
    }

    /** Compare the claim with what matches now, withdraw it if it does not fit, and ask what matches. It succeeds
        only if the claim fits, or there is none, or it has been withdrawn: from a copy that is not current, and
        whenever the withdrawal is refused for another reason, it fails. */
    method Check(e: Eip, ghost c: Config, ghost s: State, ghost m: State, ghost run: seq<Step>)
      returns (r: Result<Action>, asked: set<string>, ghost run': seq<Step>)
      requires m.kube == api.store && m.aws == ec2.cloud && Keyed(m.kube)
      requires Reaches(c, s, run, m, EipOwner(e.key), EipList(e))
      modifies api, ec2
      ensures RunsTo(c, s, run', m.(kube := api.store, aws := ec2.cloud))
      ensures r.Ok? ==> r == Ok(Await)
      ensures r.Ok? || (api.reliable && ec2.reliable) ==> m.(kube := api.store, aws := ec2.cloud) == Checked(m, e)
      ensures r.Ok? ==> asked == if Settled(m, e) then {} else Kube.Resources(m.kube, e)
      ensures r.Ok? && Misclaimed(m.kube, e) ==> Withdrawn(api.store, e) && NoneHas(ec2.cloud, e.AssociationId())
      ensures !Misclaimed(m.kube, e) ==> api.store == m.kube && ec2.cloud == m.aws
      ensures OnlyEip(m.kube, api.store, e.key) && OnlyAssociation(m.aws, ec2.cloud, e.AssociationId())
      ensures api.reliable && ec2.reliable ==>
                r == if !Misclaimed(m.kube, e) || Fresh(m, e) then Ok(Await)
                     else if e.key in m.kube.eips then Err(Conflict) else Err(NotFound)
      ensures r != Err(MultipleEipsTaggedForPod)
    {
      hide RunTask, RunsTo, Reaches, Kube.WriteStatus, Kube.Resources, OnlyEip, OnlyAssociation, NoneHas, Withdrawn,
           Aws.Disassociate, Kube.SetStatusDetached;
      DetachingIs(m.kube, e);
      DisassociatingIs(m.aws, e.AssociationId());
      asked := {};
      ghost var o, now := EipOwner(e.key), m;
      var listed := api.ListResources(e);
      if listed.Err? {
        run' := Abort(c, s, run, m, o, EipList(e));
        return Err(CallFailed), asked, run';
      }
      run' := ListsResources(c, s, run, m, e);
      if e.ResourceId().Some? && e.ResourceId().value in listed.value {
        return Ok(Await), asked, run';
      }
      if e.ResourceId().Some? {
        if e.AssociationId().Some? {
          var gone := ec2.DisassociateEip(e.AssociationId().value);
          if gone.Err? {
            run' := Abort(c, s, run', m, o, EipDisassociate(e, listed.value));
            return Err(CallFailed), asked, run';
          }
          run' := Disassociates(c, s, run', m, e, listed.value);
          now := now.(aws := ec2.cloud);
        }
        var detached := api.Write(Kube.SetStatusDetached(api.store, e));
        if detached.Err? {
          run' := Abort(c, s, run', now, o, EipDetach(e, listed.value));
          return Err(detached.error), asked, run';
        }
        run' := Detaches(c, s, run', now, e, listed.value, api.store);
        now := now.(kube := api.store);
      }
      run' := Refreshes(c, s, run', now, e, listed.value);
      return Ok(Await), listed.value, run';
    }

    /** When it succeeds no address carries the Eip's uid, and every other address is as it was. Then the
        finalizer goes, and the object with it; the run ends there, and has done what `EipCleaned` says. */
    method Cleanup(e: Eip, ghost c: Config, ghost s: State)
      returns (r: Result<Action>, ghost run: seq<Step>, ghost found: seq<nat>)
      requires Start(c, s, StartEip(e)).Some? && e.deleting
      requires s.kube == api.store && s.aws == ec2.cloud && OwnAssociations(s.aws)
      modifies ec2
      ensures r.Ok? ==>
                Aws.Tagged(s.aws, e.uid, found) && RunsTo(c, s, run, EipCleaned(Condemned(s, e), e, found))
                    && ec2.cloud == Released(s.aws, found)
      ensures r.Err? ==> RunsTo(c, s, run, Condemned(s, e).(aws := ec2.cloud))
      ensures forall x :: x in s.aws.addrs && s.aws.addrs[x].uid != e.uid ==>
                x in ec2.cloud.addrs && ec2.cloud.addrs[x] == s.aws.addrs[x]
      ensures ec2.cloud.addrs.Keys <= s.aws.addrs.Keys
      ensures r.Ok? ==> r == Ok(Await) && forall x :: x in ec2.cloud.addrs ==> ec2.cloud.addrs[x].uid != e.uid
      ensures ec2.reliable ==> r.Ok?
    {
      hide RunTask, Start, RunsTo, Reaches, OwnAssociations, Finalized;
      ghost var m, o := Condemned(s, e), EipOwner(e.key);
      run := EipStarts(c, s, e);
      var tagged := ec2.DescribeTagged(e.uid);
      if tagged.Err? {
        run := Abort(c, s, run, m, o, EipSweep(e));
        return Err(tagged.error), run, [];
      }
      found := tagged.value;
      var todo := Described(ec2.cloud, tagged.value);
      run := Sweeps(c, s, run, m, e, found);
      assert todo[0..] == todo;
      for i := 0 to |tagged.value|
        invariant Reaches(c, s, run, m, o, EipRelease(e, todo[i..]))
        invariant m == Condemned(s, e).(aws := ec2.cloud)
        invariant ReleasedAll(s.aws, ec2.cloud, found[..i])
      {
        hide ReleasedAll, Aws.Disassociate, Aws.Release, Aws.Tagged;
        var x := tagged.value[i];
        assert todo[i..][0] == todo[i] && todo[i..][1..] == todo[i + 1..];
        ReleaseOne(s.aws, ec2.cloud, found, i);
        ReleasedOthers(s.aws, ec2.cloud, e.uid, found, i);
        var released;
        released, run := DisassociateAndRelease(e, x, todo[i].1, c, s, m, run, todo[i..]);
        if released.Err? {
          return Err(released.error), run, found;
        }
        m := m.(aws := ec2.cloud);
      }
      assert found[..|found|] == found && todo[|found|..] == [];
      run := SweptAll(c, s, run, m, e);
      run := EipFinalizes(c, s, run, m, e);
      return Ok(Await), run, found;
    }

    /** Disassociate the address if the listing showed an association, then release it. */
    method DisassociateAndRelease(e: Eip, x: nat, association: Option<nat>, ghost c: Config, ghost s: State,
                                  ghost m: State,
                                  ghost run: seq<Step>, ghost todo: seq<(nat, Option<nat>)>)
      returns (r: Result<()>, ghost run': seq<Step>)
      requires m.aws == ec2.cloud && todo != [] && todo[0] == (x, association)
      requires Reaches(c, s, run, m, EipOwner(e.key), EipRelease(e, todo))
      modifies ec2
      ensures var loose := if association.Some? then Aws.Disassociate(m.aws, association.value) else m.aws;
              && (r.Ok? ==> Aws.Release(loose, x) == Ok(ec2.cloud))
              && (r.Err? ==> ec2.cloud == m.aws || ec2.cloud == loose)
              && (ec2.reliable && Aws.Release(loose, x).Ok? ==> r.Ok?)
      ensures r.Ok? ==> Reaches(c, s, run', m.(aws := ec2.cloud), EipOwner(e.key), EipRelease(e, todo[1..]))
      ensures r.Err? ==> RunsTo(c, s, run', m.(aws := ec2.cloud))
    {
      hide RunTask, RunsTo, Reaches, Aws.Disassociate, Aws.Release;
      ghost var now, rest := m, [(x, None)] + todo[1..];
      assert rest[1..] == todo[1..];
      run' := run;
      if association.Some? {
        var gone := ec2.DisassociateEip(association.value);
        if gone.Err? {
          run' := Abort(c, s, run', m, EipOwner(e.key), EipRelease(e, todo));
          return Err(gone.error), run';
        }
        run' := DropsAssociation(c, s, run', m, e, todo);
        now := m.(aws := ec2.cloud);
      } else {
        assert rest == todo;
      }
      var released := ec2.ReleaseAddress(x);
      if released.Err? {
        run' := Abort(c, s, run', now, EipOwner(e.key), EipRelease(e, rest));
        return Err(released.error), run';
      }
      run' := DropsAddress(c, s, run', now, e, rest, ec2.cloud);
      return Ok(()), run';
    }
  }

  predicate Fresh(s: State, e: Eip) {
    e.key in s.kube.eips && s.kube.eips[e.key].version == e.version
  }

  /** The copy claims the Eip for a resource that does not match. */
  predicate Misclaimed(k: Kube.Store, e: Eip) {
    e.ResourceId().Some? && e.ResourceId().value !in Kube.Resources(k, e)
  }

  /** The Eip is there, with the copy's address and no claim, place or association. */
  predicate Withdrawn(k: Kube.Store, e: Eip)
    requires e.status.Some?
  {
    && e.key in k.eips
    && k.eips[e.key].status == Some(Status(e.AllocationId(), e.status.value.publicIp, None, None, None, None))
  }

  predicate NoneHas(a: Aws.Cloud, association: Option<nat>) {
    association.Some? ==> forall x :: x in a.addrs ==> Aws.AssociationOf(a.addrs[x]) != association
  }

  /** The status names that address. */
  predicate NamesAddress(k: Kube.Store, key: Key, alloc: nat, publicIp: string) {
    && key in k.eips && k.eips[key].status.Some?
    && k.eips[key].status.value.allocationId == Some(alloc) && k.eips[key].status.value.publicIp == Some(publicIp)
  }

  /** The one address with the Eip's uid that was found, or the one allocated next. */
  function FoundAddress(a: Aws.Cloud, found: seq<nat>): nat {
    if found == [] then a.next else found[0]
  }

  /** Every address is as it was, but that one may have lost the association. */
  predicate OnlyAssociation(a: Aws.Cloud, a': Aws.Cloud, association: Option<nat>) {
    && a'.addrs.Keys == a.addrs.Keys
    && forall x :: x in a.addrs ==>
         || a'.addrs[x] == a.addrs[x]
         || (&& association.Some? && Aws.AssociationOf(a.addrs[x]) == association
             && a'.addrs[x] == a.addrs[x].(association := None))
  }

  /** At most one address is new, and it is the Eip's; the others may have lost the association the copy names. */
  predicate OnlyAdds(a: Aws.Cloud, a': Aws.Cloud, e: Eip) {
    && (forall x :: x in a'.addrs && x !in a.addrs ==>
          x == a.next && a'.addrs[x].uid == e.uid && a'.addrs[x].ns == e.key.ns && a'.addrs[x].association.None?)
    && (forall x :: x in a.addrs ==>
          && x in a'.addrs
          && (|| a'.addrs[x] == a.addrs[x]
              || (&& e.AssociationId().Some? && Aws.AssociationOf(a.addrs[x]) == e.AssociationId()
                  && a'.addrs[x] == a.addrs[x].(association := None))))
  }

  lemma OnlyAddsOne(a: Aws.Cloud, a1: Aws.Cloud, a': Aws.Cloud, e: Eip)
    requires a1 == a || exists ip :: a1 == Aws.Allocate(a, e.uid, e.key.ns, ip)
    requires OnlyAssociation(a1, a', e.AssociationId()) || a' == a1
    ensures a.next !in a.addrs ==> OnlyAdds(a, a', e)
  {
  }

  lemma SameEip(k: Kube.Store, key: Key)
    ensures OnlyEip(k, k, key)
  {
  }

  lemma OnlyEipOn(k: Kube.Store, k1: Kube.Store, k': Kube.Store, e: Eip)
    requires OnlyEip(k, k1, e.key) && OnlyEip(k1, k', e.key)
    ensures OnlyEip(k, k', e.key)
  {
  }

  /** An address that is there stays, with its uid and public IP. */
  lemma AddressHolds(a1: Aws.Cloud, a': Aws.Cloud, e: Eip, x: nat)
    requires OnlyAssociation(a1, a', e.AssociationId()) && x in a1.addrs
    ensures x in a'.addrs && a'.addrs[x].uid == a1.addrs[x].uid && a'.addrs[x].publicIp == a1.addrs[x].publicIp
  {
  }

  lemma DetachingIs(k: Kube.Store, e: Eip)
    requires Keyed(k)
    ensures OnlyEip(k, k, e.key)
    ensures var r := Kube.SetStatusDetached(k, e);
            && (r.Ok? ==> e.status.Some? && Withdrawn(r.value, e) && OnlyEip(k, r.value, e.key))
            && (e.status.Some? ==>
                  (r.Ok? <==> e.key in k.eips && k.eips[e.key].version == e.version)
                  && (e.key !in k.eips ==> r == Err(NotFound)) && (r.Err? && e.key in k.eips ==> r == Err(Conflict)))
  {
  }

  lemma DisassociatingIs(a: Aws.Cloud, association: Option<nat>)
    ensures OnlyAssociation(a, a, association) && (association.None? ==> NoneHas(a, association))
    ensures association.Some? ==>
              && NoneHas(Aws.Disassociate(a, association.value), association)
              && OnlyAssociation(a, Aws.Disassociate(a, association.value), association)
  {
  }

  /** Recording the address again changes nothing, the version included. */
  lemma RecordingIs(k: Kube.Store, e: Eip, alloc: nat, publicIp: string)
    requires Keyed(k)
    ensures var r := Kube.SetStatusCreated(k, e.key, alloc, publicIp);
            && (r.Ok? <==> e.key in k.eips) && (r.Err? ==> r == Err(NotFound))
            && (r.Ok? ==>
                  && Keyed(r.value) && Kube.Resources(r.value, e) == Kube.Resources(k, e)
                  && OnlyEip(k, r.value, e.key) && NamesAddress(r.value, e.key, alloc, publicIp)
                  && (NamesAddress(k, e.key, alloc, publicIp) ==> r.value == k)
                  && (!NamesAddress(k, e.key, alloc, publicIp) ==> r.value.eips[e.key].version == k.next))
  {
  }

  /** Exactly the addresses of `gone` are released. */
  predicate ReleasedAll(a: Aws.Cloud, a': Aws.Cloud, gone: seq<nat>) {
    a' == Released(a, gone)
  }

  lemma ReleaseOne(a: Aws.Cloud, a1: Aws.Cloud, found: seq<nat>, i: nat)
    requires OwnAssociations(a) && i < |found| && ReleasedAll(a, a1, found[..i])
    requires forall j :: 0 <= j < |found| ==> found[j] in a.addrs
    requires forall j, k :: 0 <= j < k < |found| ==> found[j] != found[k]
    ensures var x := found[i];
            && x in a1.addrs && a1.addrs[x] == a.addrs[x]
            && var a2 := if a.addrs[x].association.Some? then Aws.Disassociate(a1, a.addrs[x].association.value.id)
               else a1;
               Aws.Release(a2, x).Ok? && ReleasedAll(a, Aws.Release(a2, x).value, found[..i + 1])
  {
    assert found[..i + 1] == found[..i] + [found[i]];
  }

  /** Only addresses with the Eip's uid are touched on the way. */
  lemma ReleasedOthers(a: Aws.Cloud, a1: Aws.Cloud, uid: nat, found: seq<nat>, i: nat)
    requires OwnAssociations(a) && i < |found| && ReleasedAll(a, a1, found[..i]) && Aws.Tagged(a, uid, found)
    ensures a1.addrs.Keys <= a.addrs.Keys
    ensures forall x :: x in a.addrs && a.addrs[x].uid != uid ==> x in a1.addrs && a1.addrs[x] == a.addrs[x]
    ensures a.addrs[found[i]].association.Some? ==>
              var a2 := Aws.Disassociate(a1, a.addrs[found[i]].association.value.id);
              forall x :: x in a.addrs && a.addrs[x].uid != uid ==> x in a2.addrs && a2.addrs[x] == a.addrs[x]
  {
  }
}
