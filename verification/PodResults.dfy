/** What a successful pod reconcile leaves, and that repeating it changes nothing. */
module PodResults {
  import opened Base
  import opened Protocol
  import opened Atomic
  import opened Detaching
  import Kube
  import Aws

  /** `e` is the one Eip of the namespace that selects the pod. */
  predicate OnlyMatch(k: Kube.Store, ns: string, name: string, e: Eip) {
    && e.key in k.eips && k.eips[e.key] == e && e.key.ns == ns && e.MatchesPod(name)
    && forall key :: key in k.eips && key.ns == ns && k.eips[key].MatchesPod(name) ==> key == e.key
  }

  /** In whatever order the server lists them. */
  lemma MatchesOne(k: Kube.Store, ns: string, keys: seq<Key>, name: string, e: Eip)
    requires Keyed(k) && Kube.Lists(k, ns, keys)
    ensures MatchingPod(k.eips, keys, name) == [e] <==> OnlyMatch(k, ns, name, e)
  {
    var keep := (x: Eip) => x.MatchesPod(name);
    var matched := Kube.Select(k.eips, keys, keep);
    SelectDistinct(k.eips, keys, keep);
    SameSelection(k.eips, keys, name, keep);
    if matched == [e] {
      assert e in matched;
      forall key | key in k.eips && key.ns == ns && k.eips[key].MatchesPod(name) ensures key == e.key {
        assert key in keys;
        assert k.eips[key] in matched;
      }
    }
    if OnlyMatch(k, ns, name, e) {
      assert e.key in keys;
      assert e in matched;
      forall i | 0 <= i < |matched| ensures matched[i] == e {
        assert matched[i] in matched;
      }
      assert |matched| > 1 ==> matched[0].key != matched[1].key;
    }
  }

  lemma {:induction false} SameSelection(eips: map<Key, Eip>, keys: seq<Key>, name: string, keep: Eip -> bool)
    requires forall i :: 0 <= i < |keys| ==> keys[i] in eips
    requires forall e :: keep(e) <==> e.MatchesPod(name)
    ensures MatchingPod(eips, keys, name) == Kube.Select(eips, keys, keep)
  {
    if keys != [] {
      SameSelection(eips, keys[1..], name, keep);
    }
  }

  /** The pod has the Eip: the claim and the place are recorded and the address is there. */
  predicate Holds(s: State, p: Pod, key: Key, eni: string) {
    && key in s.kube.eips && p.ip.Some?
    && var e := s.kube.eips[key];
       && e.status.Some? && e.AllocationId().Some? && e.AllocationId().value in s.aws.addrs
       && e.status.value.resourceId == Some(p.key.name) && e.status.value.eni == Some(eni)
       && e.status.value.privateIp == p.ip
       && s.aws.addrs[e.AllocationId().value].At(eni, p.ip.value)
  }

  /** The pod has the Eip, and carries its address in the annotation. */
  predicate Served(s: State, p: Pod, key: Key, eni: string) {
    && Holds(s, p, key, eni) && p.key in s.kube.pods
    && var alloc := s.kube.eips[key].AllocationId().value;
       s.kube.pods[p.key].annotation == Some(Annotation(alloc, s.aws.addrs[alloc].publicIp))
  }

  /** Only the Eip, its address, what was in its place, and the pod are touched. */
  predicate OnlyTouches(s: State, s': State, p: Pod, e: Eip, eni: string)
    requires p.ip.Some?
  {
    && s'.kube.eips.Keys == s.kube.eips.Keys && s'.kube.pods.Keys == s.kube.pods.Keys && s'.kube.nodes == s.kube.nodes
    && (forall key :: key in s.kube.eips && key != e.key ==> s'.kube.eips[key] == s.kube.eips[key])
    && (forall key :: key in s.kube.pods && key != p.key ==> s'.kube.pods[key] == s.kube.pods[key])
    && s'.aws.addrs.Keys == s.aws.addrs.Keys
    && (forall x :: x in s.aws.addrs && e.AllocationId() != Some(x) ==>
          s'.aws.addrs[x] == s.aws.addrs[x]
              || (s.aws.addrs[x].At(eni, p.ip.value) && s'.aws.addrs[x] == s.aws.addrs[x].(association := None)))
  }

  lemma AnnotatingServes(s: State, p: Pod, key: Key, eni: string)
    requires Holds(s, p, key, eni) && p.key in s.kube.pods && s.kube.pods[p.key].key == p.key
    ensures var e := s.kube.eips[key];
            var s' := Annotated(s, p, Annotation(e.AllocationId().value, s.aws.addrs[e.AllocationId().value].publicIp));
            && Served(s', p, key, eni) && s'.kube.eips == s.kube.eips && s'.aws == s.aws
            && s'.kube.nodes == s.kube.nodes
            && s'.kube.pods.Keys == s.kube.pods.Keys && s'.kube.pods[p.key].key == p.key
            && forall q :: q in s.kube.pods && q != p.key ==> s'.kube.pods[q] == s.kube.pods[q]
  {
  }

  /** Taking the Eip serves the pod. */
  lemma TakingServes(s: State, p: Pod, e: Eip, eni: string)
    requires p.ip.Some? && e.AllocationId().Some? && e.key in s.kube.eips && s.kube.eips[e.key] == e
    requires p.key in s.kube.pods && s.kube.pods[p.key].key == p.key
    requires e.AllocationId().value in s.aws.addrs
    ensures var s' := PodTook(s, p, e, eni);
            && Served(s', p, e.key, eni) && OnlyTouches(s, s', p, e, eni) && s'.kube.pods[p.key].key == p.key
            && s'.kube.eips[e.key].selector == e.selector && s'.kube.eips[e.key].key == e.key
            && s'.kube.eips[e.key].uid == e.uid
  {
    hide Served, Annotated;
    var s1 := if s.aws.addrs[e.AllocationId().value].At(eni, p.ip.value)
              then WithClaim(s, e, p.key.name, eni, p.ip.value)
              else Place(s, e, p.key.name, eni, p.ip.value);
    ClaimingClaims(s, p, e, eni);
    AnnotatingServes(s1, p, e.key, eni);
  }

  lemma ClaimingClaims(s: State, p: Pod, e: Eip, eni: string)
    requires p.ip.Some? && e.AllocationId().Some? && e.key in s.kube.eips && s.kube.eips[e.key] == e
    requires e.AllocationId().value in s.aws.addrs
    ensures var s' := if s.aws.addrs[e.AllocationId().value].At(eni, p.ip.value)
                      then WithClaim(s, e, p.key.name, eni, p.ip.value)
                      else Place(s, e, p.key.name, eni, p.ip.value);
            && Holds(s', p, e.key, eni) && OnlyTouches(s, s', p, e, eni) && s'.kube.pods == s.kube.pods
            && s'.kube.eips[e.key].selector == e.selector && s'.kube.eips[e.key].key == e.key
            && s'.kube.eips[e.key].uid == e.uid
            && s'.kube.eips[e.key].AllocationId() == e.AllocationId()
            && s'.aws.addrs[e.AllocationId().value].publicIp == s.aws.addrs[e.AllocationId().value].publicIp
  {
    hide Kube.WriteStatus;
    PlaceDoes(s, e, p.key.name, eni, p.ip.value);
  }

  /** A served pod needs nothing: no write changes anything and no address is moved. */
  lemma ServedStays(s: State, p: Pod, e: Eip, eni: string)
    requires e.key in s.kube.eips && s.kube.eips[e.key] == e && Served(s, p, e.key, eni)
    ensures PodTook(s, p, e, eni) == s
  {
  }

  /** A pod's reconcile reaches its Eip: one matches, with an address, and the pod is still there. */
  predicate Serves(s: State, p: Pod, e: Eip, located: Result<string>) {
    && p.nodeName.Some? && p.ip.Some? && located.Ok? && p.key in s.kube.pods && s.kube.pods[p.key].key == p.key
    && (p.autocreate ==> Kube.CreateForPod(s.kube, p.key).Ok?)
    && OnlyMatch(PodCreated(s, p).kube, p.key.ns, p.key.name, e)
    && e.AllocationId().Some? && e.AllocationId().value in s.aws.addrs
  }

  lemma AppliedIsTaken(s: State, p: Pod, keys: seq<Key>, located: Result<string>, e: Eip)
    requires Keyed(s.kube) && Kube.Lists(PodCreated(s, p).kube, p.key.ns, keys) && Serves(s, p, e, located)
    ensures Keyed(PodCreated(s, p).kube)
    ensures PodApplied(s, p, keys, located) == PodTook(PodCreated(s, p), p, e, located.value)
  {
    hide PodTook;
    MatchesOne(PodCreated(s, p).kube, p.key.ns, keys, p.key.name, e);
  }

  /** A successful pod reconcile serves the pod, and its next one reaches the same Eip. */
  lemma AppliedServes(s: State, p: Pod, keys: seq<Key>, located: Result<string>, e: Eip)
    requires Keyed(s.kube) && Keyed(PodCreated(s, p).kube)
    requires Kube.Lists(PodCreated(s, p).kube, p.key.ns, keys) && Serves(s, p, e, located)
    ensures var s' := PodApplied(s, p, keys, located);
            && Served(s', p, e.key, located.value) && Keyed(s'.kube) && PodCreated(s', p) == s'
            && s'.kube.eips[e.key].key == e.key && Serves(s', p, s'.kube.eips[e.key], located)
  {
    hide PodTook, Kube.Lists;
    var s1 := PodCreated(s, p);
    AppliedIsTaken(s, p, keys, located, e);
    TakingServes(s1, p, e, located.value);
    CreatedStays(s, s1, PodTook(s1, p, e, located.value), p);
  }

  /** A second reconcile, however the server then lists the Eips, issues no write that is recorded and no
      associate: the whole state stays as it is. */
  lemma PodApplyIdempotent(s: State, p: Pod, keys: seq<Key>, keys': seq<Key>, located: Result<string>, e: Eip)
    requires Keyed(s.kube) && Keyed(PodCreated(s, p).kube)
    requires Kube.Lists(PodCreated(s, p).kube, p.key.ns, keys) && Serves(s, p, e, located)
    requires Kube.Lists(PodApplied(s, p, keys, located).kube, p.key.ns, keys')
    ensures var s' := PodApplied(s, p, keys, located);
            && Served(s', p, e.key, located.value) && PodAnswer(s, p, keys, located) == Ok(Await)
            && PodCreated(s', p) == s' && Keyed(s'.kube)
            && PodApplied(s', p, keys', located) == s' && PodAnswer(s', p, keys', located) == Ok(Await)
  {
    hide PodTook, PodApplied, Served;
    var s' := PodApplied(s, p, keys, located);
    AppliedServes(s, p, keys, located, e);
    AppliedIsTaken(s', p, keys', located, s'.kube.eips[e.key]);
    ServedStays(s', p, s'.kube.eips[e.key], located.value);
    Answers(s, p, keys, located, e);
    Answers(s', p, keys', located, s'.kube.eips[e.key]);
  }

  lemma Answers(s: State, p: Pod, keys: seq<Key>, located: Result<string>, e: Eip)
    requires Keyed(PodCreated(s, p).kube)
    requires Kube.Lists(PodCreated(s, p).kube, p.key.ns, keys) && Serves(s, p, e, located)
    ensures PodAnswer(s, p, keys, located) == Ok(Await)
  {
    MatchesOne(PodCreated(s, p).kube, p.key.ns, keys, p.key.name, e);
  }

  /** Once the Eip made for the pod is there, with the pod's selector, making it again changes nothing. */
  lemma CreatedStays(s: State, s1: State, s': State, p: Pod)
    requires s1 == PodCreated(s, p) && (p.autocreate ==> Kube.CreateForPod(s.kube, p.key).Ok?)
    requires s'.kube.eips.Keys == s1.kube.eips.Keys
    requires forall key :: key in s1.kube.eips ==> s'.kube.eips[key].selector == s1.kube.eips[key].selector
    ensures PodCreated(s', p) == s' && (p.autocreate ==> Kube.CreateForPod(s'.kube, p.key).Ok?)
  {
  }
}
