/**
 Each kind of change to the two stores keeps the store invariant, and is one that the tasks of other
 owners can live with.

 There are few kinds, whatever the call: an Eip is stored anew, created or removed, a pod is stored anew or
 removed, an address is allocated, released, or its association changes, and a watch moves on. For each of them
 one lemma, named `...Inv`, says that the logs, the links between the stores and the watches stay in order, and
 one, named `...Rely`, that it is a change others may rely on. The steps of the reconciles only have to say which
 kind of change they make.
 */
module Effects {
  import opened Base
  import opened Protocol
  import opened Invariants
  import opened Interference
  import Kube
  import Aws

  // ---- Writing an existing Eip ----

  /** `e` may replace the current object. */
  ghost predicate GoodUpdate(c: Config, s: State, e: Eip) {
    && e.key in s.kube.eips && e.uid == s.kube.eips[e.key].uid
    && Grows(s.kube.eips[e.key], e)
    && StatusOk(c, e) && AllocationOk(s, e) && AssociationOk(s, e)
    && (e.selector.PodSelector? && e.ResourceId().Some? ==>
          Key(e.key.ns, e.selector.podName) in s.kube.pods && s.kube.pods[Key(e.key.ns, e.selector.podName)].finalizer)
  }

  ghost predicate ClaimKept(s: State, e: Eip)
    requires e.key in s.kube.eips
  {
    e.ResourceId() == None || e.ResourceId() == s.kube.eips[e.key].ResourceId()
  }

  function Put(s: State, e: Eip): State {
    s.(kube := Kube.PutEip(s.kube, e))
  }

  /** A version that is new is no other object's. */
  lemma SameVersions(k: Kube.Store, e: Eip)
    requires LogOk(k) && e.version == k.next
    ensures forall a, b {:trigger SameVersion(a, b)} ::
              a in k.eipLog + {e} && b in k.eipLog + {e} && SameVersion(a, b) ==> a == b
  {
  }

  lemma PutLog(c: Config, s: State, e: Eip)
    requires StoreInv(c, s) && GoodUpdate(c, s, e)
    ensures LogOk(Put(s, e).kube) && CurrentOk(Put(s, e).kube)
  {
    var k, k' := s.kube, Put(s, e).kube;
    var cur, e' := k.eips[e.key], e.(version := k.next);
    assert forall a :: a in k.eipLog ==> UpTo(a, cur) && (a.uid == e.uid ==> Grows(a, cur));
    forall a, b | a in k'.eipLog && b in k'.eipLog && a.uid == b.uid && a.version <= b.version ensures Grows(a, b) {
      if b != e' {
        assert Grows(a, b);
      }
    }
    assert k.homes[cur.uid] == e.key;
    forall key, a | key in k'.eips && a in k'.eipLog ensures UpTo(a, k'.eips[key]) {
      if key != e.key {
        assert k.eips[key] in k.eipLog;
        assert a in k.eipLog ==> UpTo(a, k.eips[key]);
      }
    }
    SameVersions(k, e');
  }

  lemma PutLinks(c: Config, s: State, e: Eip)
    requires LinksOk(c, s) && GoodUpdate(c, s, e)
    ensures LinksOk(c, Put(s, e))
  {
    var s' := Put(s, e);
    forall a | a in s'.kube.eipLog ensures StatusOk(c, a) && AllocationOk(s', a) && AssociationOk(s', a) {
      if a in s.kube.eipLog {
        assert StatusOk(c, a) && AllocationOk(s, a) && AssociationOk(s, a);
      }
    }
    forall x | x in s'.aws.addrs ensures Owned(c, s', x) {
      assert Owned(c, s, x);
    }
  }

  lemma PutWatch(c: Config, s: State, e: Eip)
    requires WatchOk(s) && GoodUpdate(c, s, e)
    ensures WatchOk(Put(s, e))
  {
    var s' := Put(s, e);
    forall a | Startable(s', a) ensures Alive(s', a) && a.uid !in s'.condemned {
      if a in s.kube.eipLog {
        assert Startable(s, a);
      }
    }
  }

  lemma PutPods(c: Config, s: State, e: Eip)
    requires PodsOk(c, s) && GoodUpdate(c, s, e)
    ensures PodsOk(c, Put(s, e))
  {
    var s' := Put(s, e);
    forall p | PodStartable(s', p) ensures PodAlive(s', p) {
      assert PodStartable(s, p);
    }
    forall key | key in s'.kube.eips ensures PodClaimOk(s', key) {
      if key != e.key {
        assert PodClaimOk(s, key);
      }
    }
  }

  lemma PutInv(c: Config, s: State, e: Eip)
    requires StoreInv(c, s) && GoodUpdate(c, s, e)
    ensures StoreInv(c, Put(s, e))
  {
    PutLog(c, s, e);
    PutLinks(c, s, e);
    PutWatch(c, s, e);
    PutPods(c, s, e);
  }

  lemma PutRely(c: Config, s: State, e: Eip, o: Owner)
    requires LogOk(s.kube) && GoodUpdate(c, s, e)
    requires ClaimKept(s, e) || !Mine(o, e)
    ensures Rely(s, Put(s, e), o)
  {
  }

  // ---- Creating and removing Eips ----

  function Create(s: State, key: Key, selector: Selector): State {
    s.(kube := Kube.CreateEip(s.kube, key, selector))
  }

  lemma CreateLog(s: State, key: Key, selector: Selector)
    requires LogOk(s.kube) && CurrentOk(s.kube) && key !in s.kube.eips
    ensures LogOk(Create(s, key, selector).kube) && CurrentOk(Create(s, key, selector).kube)
  {
    var k, k' := s.kube, Create(s, key, selector).kube;
    var e' := k'.eips[key];
    assert forall a :: a in k'.eipLog && a != e' ==> a in k.eipLog && a.uid < e'.uid && a.version < e'.version;
    forall a, b | a in k'.eipLog && b in k'.eipLog && a.uid == b.uid && a.version <= b.version ensures Grows(a, b) {
      if a in k.eipLog && b in k.eipLog {
        assert Grows(a, b);
      }
    }
    forall x, a | x in k'.eips && a in k'.eipLog ensures UpTo(a, k'.eips[x]) {
      if x != key {
        assert k.eips[x] in k.eipLog;
        assert a in k.eipLog ==> UpTo(a, k.eips[x]);
      }
    }
    SameVersions(k, e');
  }

  lemma CreateInv(c: Config, s: State, key: Key, selector: Selector)
    requires StoreInv(c, s) && key !in s.kube.eips
    ensures StoreInv(c, Create(s, key, selector))
  {
    var s' := Create(s, key, selector);
    CreateLog(s, key, selector);
    CreateLinks(c, s, key, selector);
    CreateRest(c, s, key, selector);
  }

  lemma CreateLinks(c: Config, s: State, key: Key, selector: Selector)
    requires LogOk(s.kube) && LinksOk(c, s) && key !in s.kube.eips
    ensures LinksOk(c, Create(s, key, selector))
  {
    var s' := Create(s, key, selector);
    forall a | a in s'.kube.eipLog ensures StatusOk(c, a) && AllocationOk(s', a) && AssociationOk(s', a) {
      if a in s.kube.eipLog {
        assert StatusOk(c, a) && AllocationOk(s, a) && AssociationOk(s, a);
      }
    }
    forall x | x in s'.aws.addrs ensures Owned(c, s', x) {
      assert Owned(c, s, x);
    }
  }

  lemma CreateRest(c: Config, s: State, key: Key, selector: Selector)
    requires WatchOk(s) && PodsOk(c, s) && key !in s.kube.eips
    ensures WatchOk(Create(s, key, selector)) && PodsOk(c, Create(s, key, selector))
  {
    var s' := Create(s, key, selector);
    forall a | Startable(s', a) ensures Alive(s', a) && a.uid !in s'.condemned {
      assert Startable(s, a);
    }
    forall p | PodStartable(s', p) ensures PodAlive(s', p) {
      assert PodStartable(s, p);
    }
    forall k | k in s'.kube.eips && k != key ensures PodClaimOk(s', k) {
      assert PodClaimOk(s, k);
    }
  }

  lemma CreateRely(s: State, key: Key, selector: Selector, o: Owner)
    requires LogOk(s.kube) && key !in s.kube.eips
    ensures Rely(s, Create(s, key, selector), o)
  {
  }

  function Remove(s: State, key: Key): State {
    s.(kube := Kube.RemoveEip(s.kube, key))
  }

  /** An object may go when it never had the finalizer, or when its cleanup has left no address. */
  ghost predicate MayGo(s: State, key: Key) {
    key in s.kube.eips && (s.kube.eips[key].finalizer ==>
      && NoAddress(s, s.kube.eips[key].uid)
      && exists d ::
           d in s.kube.eipLog && d.uid == s.kube.eips[key].uid && d.deleting && d.version <= Seen(s.seenEips, key))
  }

  lemma RemoveInv(c: Config, s: State, key: Key)
    requires StoreInv(c, s) && MayGo(s, key)
    ensures StoreInv(c, Remove(s, key))
  {
    var s' := Remove(s, key);
    forall a | a in s'.kube.eipLog ensures AllocationOk(s', a) && AssociationOk(s', a) {
      assert AllocationOk(s, a) && AssociationOk(s, a);
    }
    forall x | x in s'.aws.addrs ensures Owned(c, s', x) {
      assert Owned(c, s, x);
    }
    RemoveWatch(s, key);
    forall p | PodStartable(s', p) ensures PodAlive(s', p) {
      assert PodStartable(s, p);
    }
    forall k | k in s'.kube.eips ensures PodClaimOk(s', k) {
      assert PodClaimOk(s, k);
    }
  }

  /** Once the watch has shown an object as deleted, no apply of it starts again. */
  lemma DeletedNotStartable(s: State, d: Eip)
    requires LogOk(s.kube) && d in s.kube.eipLog && d.deleting
    ensures forall a :: Startable(s, a) && d.version <= Seen(s.seenEips, a.key) ==> a.uid != d.uid
  {
    assert forall a :: a in s.kube.eipLog && a.uid == d.uid && d.version <= a.version ==> Grows(d, a);
  }

  lemma RemoveWatch(s: State, key: Key)
    requires LogOk(s.kube) && CurrentOk(s.kube) && WatchOk(s) && MayGo(s, key)
    ensures WatchOk(Remove(s, key))
  {
    var s' := Remove(s, key);
    if s.kube.eips[key].finalizer {
      var d :| d in s.kube.eipLog && d.uid == s.kube.eips[key].uid && d.deleting && d.version <= Seen(s.seenEips, key);
      DeletedNotStartable(s, d);
    }
    assert forall a :: Startable(s, a) ==> Alive(s, a) && a.uid !in s.condemned;
    forall a | Startable(s', a) ensures Alive(s', a) && a.uid !in s'.condemned {
      assert Startable(s, a);
    }
  }

  lemma RemoveRely(s: State, key: Key, o: Owner)
    requires MayGo(s, key)
    requires s.kube.eips[key].finalizer ==> o != EipOwner(key)
    ensures Rely(s, Remove(s, key), o)
  {
  }

  // ---- Pods ----

  function PodPut(s: State, p: Pod): State {
    s.(kube := Kube.PutPod(s.kube, p))
  }

  /** A new pod, or a later state of the current one. */
  ghost predicate GoodPod(c: Config, s: State, p: Pod) {
    && (p.key !in s.kube.pods ==> p.uid == s.kube.next && p.key.name !in c.nodeNames && !p.finalizer)
    && (p.key in s.kube.pods ==> p.uid == s.kube.pods[p.key].uid && PodGrows(s.kube.pods[p.key], p))
  }

  lemma PutPodLog(c: Config, s: State, p: Pod)
    requires PodLogOk(c, s.kube) && GoodPod(c, s, p)
    ensures PodLogOk(c, PodPut(s, p).kube)
  {
    var k, k' := s.kube, PodPut(s, p).kube;
    var p' := p.(version := k.next);
    assert p.key in k.pods ==> forall a :: a in k.podLog ==>
      PodUpTo(a, k.pods[p.key]) && (a.uid == p.uid ==> PodGrows(a, k.pods[p.key]));
    forall a, b | a in k'.podLog && b in k'.podLog && a.uid == b.uid && a.version <= b.version ensures PodGrows(a, b) {
      if b != p' {
        assert PodGrows(a, b);
      }
    }
    forall key, a | key in k'.pods && a in k'.podLog ensures PodUpTo(a, k'.pods[key]) {
      if key != p.key {
        assert k.pods[key] in k.podLog;
        assert a in k.podLog ==> PodUpTo(a, k.pods[key]);
      }
    }
  }

  lemma PutPodInv(c: Config, s: State, p: Pod)
    requires StoreInv(c, s) && GoodPod(c, s, p)
    ensures StoreInv(c, PodPut(s, p))
  {
    var s' := PodPut(s, p);
    PutPodLog(c, s, p);
    PodWriteLinks(c, s, s');
    forall q | PodStartable(s', q) ensures PodAlive(s', q) {
      if q in s.kube.podLog {
        assert PodStartable(s, q);
      }
    }
    forall k | k in s'.kube.eips ensures PodClaimOk(s', k) {
      assert PodClaimOk(s, k);
    }
  }

  /** Pod and node writes do not touch what the Eip and address invariants speak about. */
  lemma PodWriteLinks(c: Config, s: State, s': State)
    requires LogOk(s.kube) && CurrentOk(s.kube) && LinksOk(c, s) && WatchOk(s)
    requires s' == s.(kube := s'.kube) && s.kube.next <= s'.kube.next
    requires s'.kube.eips == s.kube.eips && s'.kube.eipLog == s.kube.eipLog && s'.kube.homes == s.kube.homes
    ensures LogOk(s'.kube) && CurrentOk(s'.kube) && LinksOk(c, s') && WatchOk(s')
  {
    forall a | a in s'.kube.eipLog ensures AllocationOk(s', a) && AssociationOk(s', a) {
      assert AllocationOk(s, a) && AssociationOk(s, a);
    }
    forall x | x in s'.aws.addrs ensures Owned(c, s', x) {
      assert Owned(c, s, x);
    }
    forall a | Startable(s', a) ensures Alive(s', a) && a.uid !in s'.condemned {
      assert Startable(s, a);
    }
  }

  lemma PutPodRely(c: Config, s: State, p: Pod, o: Owner)
    requires GoodPod(c, s, p)
    ensures Rely(s, PodPut(s, p), o)
  {
  }

  function PodRemoved(s: State, key: Key): State {
    s.(kube := Kube.RemovePod(s.kube, key))
  }

  /** A pod may go when it never had the finalizer, or when its cleanup has left no claim. */
  ghost predicate PodMayGo(s: State, key: Key) {
    key in s.kube.pods && (s.kube.pods[key].finalizer ==>
      && (forall k :: k in s.kube.eips && k.ns == key.ns ==> s.kube.eips[k].ResourceId() != Some(key.name))
      && exists d ::
           d in s.kube.podLog && d.uid == s.kube.pods[key].uid && d.deleting && d.version <= Seen(s.seenPods, key))
  }

  lemma RemovePodInv(c: Config, s: State, key: Key)
    requires StoreInv(c, s) && PodMayGo(s, key)
    ensures StoreInv(c, PodRemoved(s, key))
  {
    var s' := PodRemoved(s, key);
    PodWriteLinks(c, s, s');
    RemovePodWatch(c, s, key);
    forall k | k in s'.kube.eips ensures PodClaimOk(s', k) {
      assert PodClaimOk(s, k);
      assert s.kube.eips[k] in s.kube.eipLog && StatusOk(c, s.kube.eips[k]);
    }
  }

  lemma RemovePodWatch(c: Config, s: State, key: Key)
    requires PodsOk(c, s) && PodMayGo(s, key)
    ensures PodLogOk(c, PodRemoved(s, key).kube)
    ensures forall p :: PodStartable(PodRemoved(s, key), p) ==> PodAlive(PodRemoved(s, key), p)
  {
    var s' := PodRemoved(s, key);
    if s.kube.pods[key].finalizer {
      var d :| d in s.kube.podLog && d.uid == s.kube.pods[key].uid && d.deleting && d.version <= Seen(s.seenPods, key);
      assert forall a :: a in s.kube.podLog && a.uid == d.uid && d.version <= a.version ==> PodGrows(d, a);
    }
    forall a | PodStartable(s', a) ensures PodAlive(s', a) {
      assert PodStartable(s, a);
    }
  }

  lemma RemovePodRely(s: State, key: Key, o: Owner)
    requires PodMayGo(s, key)
    requires s.kube.pods[key].finalizer ==> o != PodOwner(key)
    ensures Rely(s, PodRemoved(s, key), o)
  {
  }

  // ---- Addresses ----

  lemma AllocateInv(c: Config, s: State, e: Eip, publicIp: string)
    requires StoreInv(c, s) && Applying(c, s, e) && NoAddress(s, e.uid)
    ensures StoreInv(c, s.(aws := Aws.Allocate(s.aws, e.uid, e.key.ns, publicIp)))
  {
    var s' := s.(aws := Aws.Allocate(s.aws, e.uid, e.key.ns, publicIp));
    forall a | a in s'.kube.eipLog ensures AllocationOk(s', a) && AssociationOk(s', a) {
      assert AllocationOk(s, a) && AssociationOk(s, a);
    }
    forall x | x in s'.aws.addrs ensures Owned(c, s', x) {
      if x in s.aws.addrs {
        assert Owned(c, s, x);
      }
    }
    SameKube(c, s, s');
  }

  lemma SameKube(c: Config, s: State, s': State)
    requires WatchOk(s) && PodsOk(c, s)
    requires s'.kube == s.kube && s'.seenEips == s.seenEips && s'.seenPods == s.seenPods && s'.condemned == s.condemned
    ensures WatchOk(s') && PodsOk(c, s')
  {
    forall a | Startable(s', a) ensures Alive(s', a) && a.uid !in s'.condemned {
      assert Startable(s, a);
    }
    forall p | PodStartable(s', p) ensures PodAlive(s', p) {
      assert PodStartable(s, p);
    }
    forall k | k in s'.kube.eips ensures PodClaimOk(s', k) {
      assert PodClaimOk(s, k);
    }
  }

  lemma AllocateRely(c: Config, s: State, e: Eip, publicIp: string, o: Owner)
    requires AwsOk(s.aws) && o != EipOwner(e.key)
    requires forall a :: a in s.kube.eipLog ==> AllocationOk(s, a) && (a.uid == e.uid ==> a.key == e.key)
    ensures Rely(s, s.(aws := Aws.Allocate(s.aws, e.uid, e.key.ns, publicIp)), o)
  {
    var s' := s.(aws := Aws.Allocate(s.aws, e.uid, e.key.ns, publicIp));
    assert s.aws.next !in s.aws.issued && s.aws.next !in s.aws.addrs;
  }

  /** Changing associations only: the address, its uid and its public IP stay. */
  ghost predicate Rewired(a: Aws.Cloud, a': Aws.Cloud) {
    && a'.addrs.Keys == a.addrs.Keys && a'.issued == a.issued && a.next <= a'.next
    && (forall i :: i in a.minted ==> i in a'.minted && a'.minted[i] == a.minted[i])
    && (forall x :: x in a.addrs ==> a'.addrs[x] == a.addrs[x].(association := a'.addrs[x].association))
  }

  lemma RewiredRely(s: State, a: Aws.Cloud, o: Owner)
    requires Rewired(s.aws, a)
    ensures LogsGrow(s, s.(aws := a)) && ClaimsOnlyDropped(s, s.(aws := a), o)
    ensures o.EipOwner? ==> KeepsEip(s, s.(aws := a), o.key)
    ensures o.PodOwner? ==> KeepsPod(s, s.(aws := a), o.podKey)
  {
  }

  lemma RewireInv(c: Config, s: State, a: Aws.Cloud)
    requires StoreInv(c, s) && Rewired(s.aws, a) && AwsOk(a)
    ensures StoreInv(c, s.(aws := a))
  {
    var s' := s.(aws := a);
    forall e | e in s'.kube.eipLog ensures AllocationOk(s', e) && AssociationOk(s', e) {
      assert AllocationOk(s, e) && AssociationOk(s, e);
    }
    forall x | x in s'.aws.addrs ensures Owned(c, s', x) {
      assert Owned(c, s, x);
    }
    SameKube(c, s, s');
  }

  lemma AssociateWires(a: Aws.Cloud, alloc: nat, eni: string, ip: string)
    requires AwsOk(a) && alloc in a.addrs
    ensures Rewired(a, Aws.Associate(a, alloc, eni, ip)) && AwsOk(Aws.Associate(a, alloc, eni, ip))
  {
  }

  lemma AssociateInv(c: Config, s: State, alloc: nat, eni: string, ip: string)
    requires StoreInv(c, s) && alloc in s.aws.addrs
    ensures StoreInv(c, s.(aws := Aws.Associate(s.aws, alloc, eni, ip)))
  {
    AssociateWires(s.aws, alloc, eni, ip);
    RewireInv(c, s, Aws.Associate(s.aws, alloc, eni, ip));
  }

  lemma AssociateRely(c: Config, s: State, e: Eip, eni: string, ip: string, o: Owner)
    requires LogOk(s.kube) && AwsOk(s.aws) && LinksOk(c, s)
    requires e in s.kube.eipLog && e.AllocationId().Some? && e.AllocationId().value in s.aws.addrs && !Mine(o, e)
    ensures Rely(s, s.(aws := Aws.Associate(s.aws, e.AllocationId().value, eni, ip)), o)
  {
    var alloc := e.AllocationId().value;
    assert AllocationOk(s, e);
    AssociateWires(s.aws, alloc, eni, ip);
    var a' := Aws.Associate(s.aws, alloc, eni, ip);
    RewiredRely(s, a', o);
    assert forall a :: a in s.kube.eipLog && a.uid == e.uid ==> Grows(a, e) || Grows(e, a);
    forall a | a in s.kube.eipLog && Mine(o, a) && a.AllocationId().Some? ensures a.AllocationId().value != alloc {
      assert AllocationOk(s, a);
    }
  }

  lemma DisassociateInv(c: Config, s: State, association: nat)
    requires StoreInv(c, s)
    ensures StoreInv(c, s.(aws := Aws.Disassociate(s.aws, association)))
  {
    RewireInv(c, s, Aws.Disassociate(s.aws, association));
  }

  lemma DisassociateRely(s: State, association: nat, o: Owner)
    ensures Rely(s, s.(aws := Aws.Disassociate(s.aws, association)), o)
  {
    RewiredRely(s, Aws.Disassociate(s.aws, association), o);
  }

  lemma ReleaseInv(c: Config, s: State, alloc: nat)
    requires StoreInv(c, s) && alloc in s.aws.addrs && s.aws.addrs[alloc].uid in s.condemned
    ensures StoreInv(c, s.(aws := s.aws.(addrs := s.aws.addrs - {alloc})))
  {
    var s' := s.(aws := s.aws.(addrs := s.aws.addrs - {alloc}));
    forall e | e in s'.kube.eipLog ensures AllocationOk(s', e) && AssociationOk(s', e) {
      assert AllocationOk(s, e) && AssociationOk(s, e);
    }
    forall x | x in s'.aws.addrs ensures Owned(c, s', x) {
      assert Owned(c, s, x);
    }
    SameKube(c, s, s');
  }

  lemma ReleaseRely(s: State, alloc: nat, o: Owner, key: Key)
    requires LogOk(s.kube) && alloc in s.aws.addrs && s.aws.addrs[alloc].uid in s.kube.homes
    requires s.kube.homes[s.aws.addrs[alloc].uid] == key && o != EipOwner(key)
    ensures Rely(s, s.(aws := s.aws.(addrs := s.aws.addrs - {alloc})), o)
  {
  }

  // ---- What the watches have delivered ----

  function SeeEip(s: State, e: Eip): State {
    s.(seenEips := s.seenEips[e.key := e.version],
       condemned := if e.deleting then s.condemned + {e.uid} else s.condemned)
  }

  lemma SeeEipInv(c: Config, s: State, e: Eip)
    requires StoreInv(c, s) && e in s.kube.eipLog && e.finalizer && Seen(s.seenEips, e.key) <= e.version
    ensures StoreInv(c, SeeEip(s, e))
  {
    var s' := SeeEip(s, e);
    forall a | a in s'.kube.eipLog ensures AllocationOk(s', a) && AssociationOk(s', a) {
      assert AllocationOk(s, a) && AssociationOk(s, a);
    }
    forall x | x in s'.aws.addrs ensures Owned(c, s', x) {
      assert Owned(c, s, x);
    }
    SeeEipWatch(s, e);
    forall p | PodStartable(s', p) ensures PodAlive(s', p) {
      assert PodStartable(s, p);
    }
    forall k | k in s'.kube.eips ensures PodClaimOk(s', k) {
      assert PodClaimOk(s, k);
    }
  }

  lemma SeeEipWatch(s: State, e: Eip)
    requires LogOk(s.kube) && CurrentOk(s.kube) && WatchOk(s)
    requires e in s.kube.eipLog && Seen(s.seenEips, e.key) <= e.version
    ensures WatchOk(SeeEip(s, e))
  {
    var s' := SeeEip(s, e);
    forall a | Startable(s', a) ensures Alive(s', a) && a.uid !in s'.condemned {
      assert Startable(s, a);
      assert a.uid == e.uid ==> Grows(e, a);
    }
    forall key | key in s'.kube.eips && s'.kube.eips[key].uid in s'.condemned ensures s'.kube.eips[key].deleting {
      if s.kube.eips[key].uid !in s.condemned {
        assert UpTo(e, s.kube.eips[key]) && Grows(e, s.kube.eips[key]);
      }
    }
  }

  lemma SeeEipRely(s: State, e: Eip, o: Owner)
    requires LogOk(s.kube) && e in s.kube.eipLog && o != EipOwner(e.key)
    ensures Rely(s, SeeEip(s, e), o)
  {
  }

  function SeePod(s: State, p: Pod): State {
    s.(seenPods := s.seenPods[p.key := p.version])
  }

  lemma SeePodInv(c: Config, s: State, p: Pod)
    requires StoreInv(c, s) && Seen(s.seenPods, p.key) <= p.version
    ensures StoreInv(c, SeePod(s, p))
  {
    var s' := SeePod(s, p);
    PodWatchLinks(c, s, s');
    forall a | PodStartable(s', a) ensures PodAlive(s', a) {
      assert PodStartable(s, a);
    }
    forall k | k in s'.kube.eips ensures PodClaimOk(s', k) {
      assert PodClaimOk(s, k);
    }
  }

  lemma PodWatchLinks(c: Config, s: State, s': State)
    requires LinksOk(c, s) && WatchOk(s)
    requires s'.kube == s.kube && s'.aws == s.aws && s'.seenEips == s.seenEips && s'.condemned == s.condemned
    ensures LinksOk(c, s') && WatchOk(s')
  {
    forall a | a in s'.kube.eipLog ensures AllocationOk(s', a) && AssociationOk(s', a) {
      assert AllocationOk(s, a) && AssociationOk(s, a);
    }
    forall x | x in s'.aws.addrs ensures Owned(c, s', x) {
      assert Owned(c, s, x);
    }
    forall a | Startable(s', a) ensures Alive(s', a) && a.uid !in s'.condemned {
      assert Startable(s, a);
    }
  }

  lemma SeePodRely(s: State, p: Pod, o: Owner)
    requires o != PodOwner(p.key)
    ensures Rely(s, SeePod(s, p), o)
  {
  }
}
