/** The loop that a pod's and a node's cleanup share: take the address of every Eip that names the resource
    off its interface, and clear the claim. */
module Detaching {
  import opened Base
  import opened Protocol
  import opened Atomic
  import opened Uninterrupted
  import opened Services
  import Kube
  import Aws

  /** No association id is in use twice. */
  predicate OwnAssociations(a: Aws.Cloud) {
    forall x, y ::
      && x in a.addrs && y in a.addrs
      && a.addrs[x].association.Some? && Aws.Names(a.addrs[y], a.addrs[x].association.value.id)
      ==> x == y
  }

  predicate DistinctKeys(todo: seq<Eip>) {
    forall i, j :: 0 <= i < j < |todo| ==> todo[i].key != todo[j].key
  }

  predicate AllCurrent(k: Kube.Store, todo: seq<Eip>) {
    forall i :: 0 <= i < |todo| ==> todo[i].key in k.eips && k.eips[todo[i].key] == todo[i] && todo[i].status.Some?
  }

  predicate HasKey(todo: seq<Eip>, key: Key) {
    exists i :: 0 <= i < |todo| && todo[i].key == key
  }

  predicate HasAllocation(todo: seq<Eip>, x: nat) {
    exists i :: 0 <= i < |todo| && todo[i].AllocationId() == Some(x)
  }

  /** The same object with an empty claim; the allocation stays. */
  predicate Freed(e: Eip, e': Eip) {
    && e.status.Some? && e'.status.Some?
    && e' == e.(version := e'.version, status := e'.status)
    && e'.status.value == Status(e.status.value.allocationId, e.status.value.publicIp, None, None, None, None)
  }

  /** Exactly the Eips of `todo` have lost their claim, and nothing else in the store is different. */
  predicate FreedAll(k: Kube.Store, k': Kube.Store, todo: seq<Eip>) {
    && k'.eips.Keys == k.eips.Keys && k'.pods == k.pods && k'.nodes == k.nodes && k'.homes == k.homes
    && forall key :: key in k.eips ==>
         if HasKey(todo, key) then Freed(k.eips[key], k'.eips[key]) else k'.eips[key] == k.eips[key]
  }

  /** Exactly the addresses of `todo` have lost their association. */
  predicate LoosedAll(a: Aws.Cloud, a': Aws.Cloud, todo: seq<Eip>) {
    && a' == a.(addrs := a'.addrs) && a'.addrs.Keys == a.addrs.Keys
    && forall x :: x in a.addrs ==>
         a'.addrs[x] == if HasAllocation(todo, x) then a.addrs[x].(association := None) else a.addrs[x]
  }

  lemma FreeOne(k: Kube.Store, k1: Kube.Store, todo: seq<Eip>, i: nat)
    requires Keyed(k) && i < |todo| && DistinctKeys(todo) && AllCurrent(k, todo)
    requires FreedAll(k, k1, todo[..i])
    ensures todo[i].key in k1.eips && k1.eips[todo[i].key] == todo[i]
    ensures Kube.SetStatusDetached(k1, todo[i]).Ok?
    ensures FreedAll(k, Kube.SetStatusDetached(k1, todo[i]).value, todo[..i + 1])
  {
    var e := todo[i];
    assert !HasKey(todo[..i], e.key);
    var k2 := Kube.SetStatusDetached(k1, e).value;
    forall key | key in k.eips
      ensures if HasKey(todo[..i + 1], key) then Freed(k.eips[key], k2.eips[key]) else k2.eips[key] == k.eips[key]
    {
      assert todo[..i + 1] == todo[..i] + [e];
      if HasKey(todo[..i], key) {
        var j :| 0 <= j < |todo[..i]| && todo[..i][j].key == key;
        assert todo[..i + 1][j].key == key;
      } else if key == e.key {
        assert todo[..i + 1][i].key == key;
      }
    }
  }

  lemma LooseOne(a: Aws.Cloud, a1: Aws.Cloud, todo: seq<Eip>, i: nat)
    requires OwnAssociations(a) && i < |todo| && LoosedAll(a, a1, todo[..i])
    requires todo[i].AllocationId().Some? && todo[i].AllocationId().value in a1.addrs
    ensures var address := a1.addrs[todo[i].AllocationId().value];
            LoosedAll(a, if address.association.Some? then Aws.Disassociate(a1, address.association.value.id) else a1,
                      todo[..i + 1])
  {
    var alloc := todo[i].AllocationId().value;
    assert todo[..i + 1] == todo[..i] + [todo[i]];
    assert todo[..i + 1][i].AllocationId() == Some(alloc);
    forall x: nat ensures HasAllocation(todo[..i + 1], x) <==> HasAllocation(todo[..i], x) || x == alloc {
      if HasAllocation(todo[..i], x) {
        var j :| 0 <= j < |todo[..i]| && todo[..i][j].AllocationId() == Some(x);
        assert todo[..i + 1][j].AllocationId() == Some(x);
      }
    }
  }

  /** The Eip has no address recorded, or one that is not there; the error says which. */
  predicate Lacks(a: Aws.Cloud, e: Eip, error: Error) {
    || (e.AllocationId().None? && error == MissingAllocationId)
    || (e.AllocationId().Some? && e.AllocationId().value !in a.addrs && error == NotFound)
  }

  /** When it succeeds, exactly the Eips of `todo` have been freed and exactly their addresses are loose. When
      no call fails it has done what `Loosened` says, and it succeeds exactly if every Eip has its address. */
  method DetachEips(api: ApiServer, ec2: Ec2, actor: Actor, todo: seq<Eip>, ghost c: Config, ghost s0: State,
                    ghost s: State, ghost run: seq<Step>)
    returns (r: Result<()>, ghost run': seq<Step>)
    requires s.kube == api.store && s.aws == ec2.cloud && Keyed(s.kube) && OwnAssociations(s.aws)
    requires DistinctKeys(todo) && AllCurrent(s.kube, todo)
    requires Reaches(c, s0, run, s, actor.Owner(), NextCleanup(actor, todo))
    modifies api, ec2
    ensures r.Ok? ==> FreedAll(s.kube, api.store, todo) && LoosedAll(s.aws, ec2.cloud, todo)
    ensures r.Ok? ==> Reaches(c, s0, run', s.(kube := api.store, aws := ec2.cloud), actor.Owner(), CleanupTail(actor))
    ensures r.Err? ==> RunsTo(c, s0, run', s.(kube := api.store, aws := ec2.cloud))
    ensures r.Ok? || (api.reliable && ec2.reliable) ==> s.(kube := api.store, aws := ec2.cloud) == Loosened(s, todo)
    ensures r.Ok? ==> AllAllocated(s.aws, todo)
    ensures api.reliable && ec2.reliable ==> (r.Ok? <==> AllAllocated(s.aws, todo))
    ensures api.reliable && ec2.reliable && r.Err? ==> exists i :: 0 <= i < |todo| && Lacks(s.aws, todo[i], r.error)
  {
    hide RunsTo, Reaches, LoosenOne, Loosened, OwnAssociations;
    run' := run;
    ghost var m := s;
    assert todo[..0] == [];
    assert todo[0..] == todo;
    for i := 0 to |todo|
      invariant m == s.(kube := api.store, aws := ec2.cloud)
      invariant FreedAll(s.kube, api.store, todo[..i]) && LoosedAll(s.aws, ec2.cloud, todo[..i])
      invariant Reaches(c, s0, run', m, actor.Owner(), NextCleanup(actor, todo[i..]))
      invariant Loosened(m, todo[i..]) == Loosened(s, todo)
      invariant AllAllocated(s.aws, todo[..i])
    {
      hide FreedAll, LoosedAll;
      assert todo[i..][0] == todo[i] && todo[i..][1..] == todo[i + 1..] && todo[..i + 1] == todo[..i] + [todo[i]];
      FreeOne(s.kube, api.store, todo, i);
      LoosedKeys(s.aws, ec2.cloud, todo[..i]);
      LoosenedNext(m, todo[i..]);
      ghost var before := m;
      r, run' := DetachOne(api, ec2, actor, todo[i], todo[i..], c, s0, m, run');
      m := s.(kube := api.store, aws := ec2.cloud);
      if r.Err? {
        return r, run';
      }
      LoosenBoth(s, before, todo, i);
    }
    assert todo[..|todo|] == todo && todo[|todo|..] == [];
    LoosenedNext(m, []);
    return Ok(()), run';
  }

  /** The loop goes on at an Eip that has its address, and stops at any other. */
  lemma LoosenedNext(s: State, todo: seq<Eip>)
    ensures Loosened(s, todo) ==
              if todo != [] && todo[0].AllocationId().Some? && todo[0].AllocationId().value in s.aws.addrs
              then Loosened(LoosenOne(s, todo[0]), todo[1..]) else s
  {
  }

  /** One pass of the loop, for the first Eip of `todo`. */
  method DetachOne(api: ApiServer, ec2: Ec2, actor: Actor, eip: Eip, ghost todo: seq<Eip>, ghost c: Config,
                   ghost s0: State, ghost m: State, ghost run: seq<Step>)
    returns (r: Result<()>, ghost run': seq<Step>)
    requires m.kube == api.store && m.aws == ec2.cloud && todo != [] && todo[0] == eip
    requires Kube.SetStatusDetached(m.kube, eip).Ok?
    requires Reaches(c, s0, run, m, actor.Owner(), CleanupDescribe(actor, todo))
    modifies api, ec2
    ensures r.Ok? ==> eip.AllocationId().Some? && eip.AllocationId().value in m.aws.addrs
    ensures r.Ok? ==> m.(kube := api.store, aws := ec2.cloud) == LoosenOne(m, eip)
    ensures r.Ok? ==>
              Reaches(c, s0, run', m.(kube := api.store, aws := ec2.cloud), actor.Owner(),
                      NextCleanup(actor, todo[1..]))
    ensures r.Err? ==> RunsTo(c, s0, run', m.(kube := api.store, aws := ec2.cloud))
    ensures api.reliable && ec2.reliable ==>
              (r.Ok? <==> eip.AllocationId().Some? && eip.AllocationId().value in m.aws.addrs)
    ensures api.reliable && ec2.reliable && r.Err? ==>
              api.store == m.kube && ec2.cloud == m.aws && Lacks(m.aws, eip, r.error)
  {
    hide RunsTo, Reaches, NextCleanup;
    if eip.AllocationId().None? {
      run' := Abort(c, s0, run, m, actor.Owner(), CleanupDescribe(actor, todo));
      return Err(MissingAllocationId), run';
    }
    var described := ec2.DescribeAddress(eip.AllocationId().value);
    if described.Err? {
      run' := Abort(c, s0, run, m, actor.Owner(), CleanupDescribe(actor, todo));
      return Err(described.error), run';
    }
    run' := CleanupDescribes(c, s0, run, m, actor, todo);
    ghost var now := m;
    if described.value.association.Some? {
      var association := described.value.association.value.id;
      var gone := ec2.DisassociateEip(association);
      if gone.Err? {
        run' := Abort(c, s0, run', m, actor.Owner(), CleanupDisassociate(actor, todo, association));
        return Err(gone.error), run';
      }
      run' := CleanupDisassociates(c, s0, run', m, actor, todo, association);
      now := m.(aws := ec2.cloud);
    }
    var written := api.Write(Kube.SetStatusDetached(api.store, eip));
    if written.Err? {
      run' := Abort(c, s0, run', now, actor.Owner(), CleanupDetach(actor, todo));
      return Err(written.error), run';
    }
    run' := CleanupDetaches(c, s0, run', now, actor, todo, api.store);
    return Ok(()), run';
  }

  /** What one pass adds to what the passes before it have done. */
  lemma LoosenBoth(s: State, m: State, todo: seq<Eip>, i: nat)
    requires Keyed(s.kube) && OwnAssociations(s.aws) && DistinctKeys(todo) && AllCurrent(s.kube, todo) && i < |todo|
    requires FreedAll(s.kube, m.kube, todo[..i]) && LoosedAll(s.aws, m.aws, todo[..i])
    requires todo[i].AllocationId().Some? && todo[i].AllocationId().value in m.aws.addrs
    ensures FreedAll(s.kube, LoosenOne(m, todo[i]).kube, todo[..i + 1])
    ensures LoosedAll(s.aws, LoosenOne(m, todo[i]).aws, todo[..i + 1])
  {
    hide FreedAll, LoosedAll, OwnAssociations;
    FreeOne(s.kube, m.kube, todo, i);
    LooseOne(s.aws, m.aws, todo, i);
  }

  lemma FreedKeepsOthers(k: Kube.Store, k': Kube.Store, todo: seq<Eip>)
    requires FreedAll(k, k', todo)
    ensures k'.nodes == k.nodes && k'.pods == k.pods && k'.eips.Keys == k.eips.Keys
  {
  }

  lemma LoosedKeys(a: Aws.Cloud, a': Aws.Cloud, todo: seq<Eip>)
    requires LoosedAll(a, a', todo)
    ensures a'.addrs.Keys == a.addrs.Keys
  {
  }

  /** The Eips a cleanup deals with are current, and no two are the same object. */
  lemma {:induction false} SelectDistinct(eips: map<Key, Eip>, keys: seq<Key>, keep: Eip -> bool)
    requires forall key :: key in eips ==> eips[key].key == key
    requires forall i :: 0 <= i < |keys| ==> keys[i] in eips
    requires forall i, j :: 0 <= i < j < |keys| ==> keys[i] != keys[j]
    ensures DistinctKeys(Kube.Select(eips, keys, keep))
    ensures forall i :: 0 <= i < |Kube.Select(eips, keys, keep)| ==> Kube.Select(eips, keys, keep)[i].key in keys
  {
    if keys != [] {
      SelectDistinct(eips, keys[1..], keep);
      var rest := Kube.Select(eips, keys[1..], keep);
      forall i | 0 <= i < |rest| ensures rest[i].key in keys && rest[i].key != keys[0] {
        assert rest[i].key in keys[1..];
      }
    }
  }

  /** What a cleanup lists: exactly the Eips that name the resource, each once and current. */
  lemma ClaimedAreCurrent(k: Kube.Store, ns: string, keys: seq<Key>, actor: Actor)
    requires Keyed(k) && Kube.Lists(k, ns, keys)
    ensures DistinctKeys(Claimed(k.eips, keys, actor)) && AllCurrent(k, Claimed(k.eips, keys, actor))
    ensures forall e :: e in Claimed(k.eips, keys, actor) <==> MustFree(k, ns, actor, e)
  {
    SelectDistinct(k.eips, keys, ClaimedBy(actor));
    var todo := Claimed(k.eips, keys, actor);
    forall i | 0 <= i < |todo| ensures todo[i].key in k.eips && k.eips[todo[i].key] == todo[i] && todo[i].status.Some? {
      assert todo[i] in todo;
    }
    forall e ensures e in todo <==> MustFree(k, ns, actor, e) {
      if MustFree(k, ns, actor, e) {
        assert e.key in keys;
        var i :| 0 <= i < |keys| && keys[i] == e.key;
      }
    }
  }

  /** The Eip is stored in the namespace and a cleanup of the resource has to free it. */
  predicate MustFree(k: Kube.Store, ns: string, actor: Actor, e: Eip) {
    e.key in k.eips && k.eips[e.key] == e && e.key.ns == ns && ClaimedBy(actor)(e)
  }

  /** Freeing them leaves none that names the resource. */
  lemma NoneLeft(k: Kube.Store, k': Kube.Store, ns: string, actor: Actor, todo: seq<Eip>, key: Key)
    requires Keyed(k) && FreedAll(k, k', todo) && key in k'.eips && key.ns == ns
    requires forall e :: e in todo <==> MustFree(k, ns, actor, e)
    ensures !ClaimedBy(actor)(k'.eips[key])
  {
    if ClaimedBy(actor)(k.eips[key]) {
      assert k.eips[key] in todo;
      assert HasKey(todo, key);
    }
  }

  // ---- What a cleanup leaves, in terms of the stores before it ----

  /** The Eip is in the namespace and names the resource; a node's cleanup also asks that it matches. */
  predicate IsClaim(k: Kube.Store, ns: string, actor: Actor, key: Key) {
    && key in k.eips && key.ns == ns && k.eips[key].ResourceId() == Some(actor.Name())
    && (actor.NodeActor? ==> k.eips[key].MatchesNode(actor.node.labels))
  }

  /** Exactly the claims are freed, and exactly their addresses are loose. */
  ghost predicate ClaimsFreed(s: State, k: Kube.Store, a: Aws.Cloud, ns: string, actor: Actor) {
    && k.eips.Keys == s.kube.eips.Keys && a.addrs.Keys == s.aws.addrs.Keys
    && (forall key :: key in s.kube.eips ==>
          if IsClaim(s.kube, ns, actor, key) then Freed(s.kube.eips[key], k.eips[key])
          else k.eips[key] == s.kube.eips[key])
    && (forall x :: x in s.aws.addrs ==>
          if exists key :: IsClaim(s.kube, ns, actor, key) && s.kube.eips[key].AllocationId() == Some(x)
          then a.addrs[x] == s.aws.addrs[x].(association := None) else a.addrs[x] == s.aws.addrs[x])
  }

  /** Every claim has its address. */
  ghost predicate ClaimsAllocated(s: State, ns: string, actor: Actor) {
    forall key :: IsClaim(s.kube, ns, actor, key) ==>
        s.kube.eips[key].AllocationId().Some? && s.kube.eips[key].AllocationId().value in s.aws.addrs
  }

  /** Some claim has no address, and the error says why. */
  ghost predicate ClaimLacks(s: State, ns: string, actor: Actor, error: Error) {
    exists key :: IsClaim(s.kube, ns, actor, key) && Lacks(s.aws, s.kube.eips[key], error)
  }

  lemma ClaimsAre(k: Kube.Store, ns: string, actor: Actor, todo: seq<Eip>)
    requires Keyed(k) && forall e :: e in todo <==> MustFree(k, ns, actor, e)
    ensures forall key :: IsClaim(k, ns, actor, key) ==> key in k.eips
    ensures forall key :: IsClaim(k, ns, actor, key) <==> HasKey(todo, key)
    ensures forall i :: 0 <= i < |todo| ==> IsClaim(k, ns, actor, todo[i].key) && k.eips[todo[i].key] == todo[i]
  {
    forall i | 0 <= i < |todo| ensures IsClaim(k, ns, actor, todo[i].key) && k.eips[todo[i].key] == todo[i] {
      assert todo[i] in todo && MustFree(k, ns, actor, todo[i]);
    }
    forall key | IsClaim(k, ns, actor, key) ensures HasKey(todo, key) {
      assert MustFree(k, ns, actor, k.eips[key]) && k.eips[key] in todo;
    }
  }

  lemma CleanupMeans(s: State, k: Kube.Store, a: Aws.Cloud, ns: string, actor: Actor, todo: seq<Eip>)
    requires Keyed(s.kube) && forall e :: e in todo <==> MustFree(s.kube, ns, actor, e)
    ensures FreedAll(s.kube, k, todo) && LoosedAll(s.aws, a, todo) ==> ClaimsFreed(s, k, a, ns, actor)
    ensures AllAllocated(s.aws, todo) <==> ClaimsAllocated(s, ns, actor)
    ensures forall i, error :: 0 <= i < |todo| && Lacks(s.aws, todo[i], error) ==> ClaimLacks(s, ns, actor, error)
  {
    hide IsClaim, MustFree, Freed;
    ClaimsAre(s.kube, ns, actor, todo);
    forall x: nat
      ensures HasAllocation(todo, x) <==>
                exists key :: IsClaim(s.kube, ns, actor, key) && s.kube.eips[key].AllocationId() == Some(x)
    {
      if HasAllocation(todo, x) {
        var i :| 0 <= i < |todo| && todo[i].AllocationId() == Some(x);
        assert IsClaim(s.kube, ns, actor, todo[i].key);
      }
      if key :| IsClaim(s.kube, ns, actor, key) && s.kube.eips[key].AllocationId() == Some(x) {
        var i :| 0 <= i < |todo| && todo[i].key == key;
        assert todo[i].AllocationId() == Some(x);
      }
    }
    forall i, error | 0 <= i < |todo| && Lacks(s.aws, todo[i], error) ensures ClaimLacks(s, ns, actor, error) {
      assert IsClaim(s.kube, ns, actor, todo[i].key);
    }
  }
}
