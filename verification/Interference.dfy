/**
 What one task may rely on while others run, and that this is enough to keep what it knows.

 `Rely(s, s', o)` describes a change of the stores made by anybody but `o`: the logs only grow and ids stay
 given out; claims on the Eips that `o` acts for are only withdrawn, and associations of their addresses only
 removed; and for an Eip reconcile, the Eip keeps its addresses, and stays alive and out of cleanup if it was.
 A task's copies may be out of date at any time; what it knows is only what survives such changes. That is what
 makes the calls of different tasks independent: each call is checked once against `Rely`, and not against every
 other call.
 */
module Interference {
  import opened Base
  import opened Protocol
  import opened Invariants
  import Kube
  import Aws

  ghost predicate LogsGrow(s: State, s': State) {
    && s.kube.eipLog <= s'.kube.eipLog
    && s.kube.podLog <= s'.kube.podLog
    && (forall x :: x in s.aws.issued ==> x in s'.aws.issued && s'.aws.issued[x] == s.aws.issued[x])
    && (forall i :: i in s.aws.minted ==> i in s'.aws.minted && s'.aws.minted[i] == s.aws.minted[i])
  }

  /** Addresses of one uid are neither allocated nor released. */
  ghost predicate SameAddresses(s: State, s': State, uid: nat) {
    && (forall x :: x in s.aws.addrs && s.aws.addrs[x].uid == uid ==>
          x in s'.aws.addrs && s'.aws.addrs[x].uid == uid && s'.aws.addrs[x].publicIp == s.aws.addrs[x].publicIp)
    && (forall x :: x in s'.aws.addrs && s'.aws.addrs[x].uid == uid ==> x in s.aws.addrs && s.aws.addrs[x].uid == uid)
  }

  ghost predicate KeepsEip(s: State, s': State, key: Key) {
    && Seen(s'.seenEips, key) == Seen(s.seenEips, key)
    && forall e :: e in s.kube.eipLog && e.key == key ==>
         && (Alive(s, e) ==> Alive(s', e))
         && (e.uid in s'.condemned <==> e.uid in s.condemned)
         && SameAddresses(s, s', e.uid)
         && (!Current(s, e) ==> !Current(s', e))
  }

  ghost predicate KeepsPod(s: State, s': State, key: Key) {
    && Seen(s'.seenPods, key) == Seen(s.seenPods, key)
    && forall p :: p in s.kube.podLog && p.key == key && PodAlive(s, p) ==> PodAlive(s', p)
  }

  /** Claims on the Eips `o` acts for are only withdrawn by others. */
  ghost predicate ClaimsOnlyDropped(s: State, s': State, o: Owner) {
    forall key :: key in s'.kube.eips && Mine(o, s'.kube.eips[key]) && s'.kube.eips[key].ResourceId().Some? ==>
      key in s.kube.eips && s.kube.eips[key].uid == s'.kube.eips[key].uid
      && s.kube.eips[key].ResourceId() == s'.kube.eips[key].ResourceId()
  }

  /** Associations of the addresses of the Eips `o` acts for are only removed by others. */
  ghost predicate AssociationsOnlyDropped(s: State, s': State, o: Owner) {
    forall e :: e in s.kube.eipLog && Mine(o, e) && e.AllocationId().Some? && e.AllocationId().value in s'.aws.addrs ==>
      var alloc := e.AllocationId().value;
      alloc in s.aws.addrs
      && (s'.aws.addrs[alloc].association == None || s'.aws.addrs[alloc].association == s.aws.addrs[alloc].association)
  }

  ghost predicate Rely(s: State, s': State, o: Owner) {
    && LogsGrow(s, s')
    && (o.EipOwner? ==> KeepsEip(s, s', o.key))
    && (o.PodOwner? ==> KeepsPod(s, s', o.podKey))
    && ClaimsOnlyDropped(s, s', o)
    && AssociationsOnlyDropped(s, s', o)
  }

  lemma KeepEip(c: Config, s: State, s': State, e: Eip)
    requires Rely(s, s', EipOwner(e.key))
    ensures Applying(c, s, e) ==> Applying(c, s', e)
    ensures Cleaning(s, e) ==> Cleaning(s', e)
    ensures e in s.kube.eipLog ==> SameAddresses(s, s', e.uid)
  {
  }

  lemma KeepEipTask(c: Config, s: State, s': State, o: Owner, t: Task)
    requires EipTask(t) && TaskOk(c, s, o, t)
    requires Rely(s, s', o)
    ensures TaskOk(c, s', o, t)
  {
    KeepEip(c, s, s', t.eip);
  }

  lemma KeepTarget(c: Config, s: State, s': State, actor: Actor, e: Eip)
    requires Target(c, s, actor, e) && StoreInv(c, s) && StoreInv(c, s')
    requires Rely(s, s', actor.Owner())
    ensures Target(c, s', actor, e)
  {
    if e.key in s'.kube.eips && s'.kube.eips[e.key].uid == e.uid {
      var e' := s'.kube.eips[e.key];
      assert UpTo(e, e') && Grows(e, e');
      assert Mine(actor.Owner(), e');
    }
  }

  lemma KeepActor(c: Config, s: State, s': State, actor: Actor)
    requires Rely(s, s', actor.Owner())
    ensures ActorApplying(c, s, actor) ==> ActorApplying(c, s', actor)
    ensures ActorCleaning(c, s, actor) ==> ActorCleaning(c, s', actor)
  {
  }

  lemma KeepApplyTask(c: Config, s: State, s': State, o: Owner, t: Task)
    requires !EipTask(t) && !CleanupTask(t) && TaskOk(c, s, o, t) && StoreInv(c, s) && StoreInv(c, s')
    requires Rely(s, s', o)
    ensures TaskOk(c, s', o, t)
  {
    hide StoreInv, Applying, Cleaning, Remaining, Found, NoAddress, Stray, Outdated, ActorCleaning, Cleans,
         HeadAssociation;
    match t {
      case NotReady(n, e) => KeepTarget(c, s, s', NodeActor(n), e);
      case NodeLocate(n, e, _) => KeepTarget(c, s, s', NodeActor(n), e);
      case Describe(actor, e, _) => KeepTarget(c, s, s', actor, e); KeepActor(c, s, s', actor);
      case Claim(actor, e, _, _) => KeepTarget(c, s, s', actor, e); KeepActor(c, s, s', actor);
      case Associate(actor, e, _, _) => KeepTarget(c, s, s', actor, e); KeepActor(c, s, s', actor);
      case RecordAssociation(actor, e, _, _) => KeepTarget(c, s, s', actor, e); KeepActor(c, s, s', actor);
      case PodCreateEip(p) => KeepActor(c, s, s', PodActor(p));
      case PodLocate(p) => KeepActor(c, s, s', PodActor(p));
      case PodList(p, _) => KeepActor(c, s, s', PodActor(p));
      case PodAnnotate(p, _, _) => KeepActor(c, s, s', PodActor(p));
      case _ =>
    }
  }

  lemma KeepCovered(c: Config, s: State, s': State, actor: Actor, todo: seq<Eip>)
    requires ActorCleaning(c, s, actor) && Covered(s, actor, todo) && StoreInv(c, s) && StoreInv(c, s')
    requires Rely(s, s', actor.Owner())
    ensures Covered(s', actor, todo)
  {
    forall key | key in s'.kube.eips && ToFree(actor, s'.kube.eips[key])
      ensures exists i :: 0 <= i < |todo| && todo[i].key == key
    {
      var e' := s'.kube.eips[key];
      assert e' in s'.kube.eipLog && StatusOk(c, e');
      assert actor.PodActor? ==> actor.pod.key.name !in c.nodeNames;
      assert Mine(actor.Owner(), e');
      var e := s.kube.eips[key];
      assert UpTo(e, e') && Grows(e, e');
      assert ToFree(actor, e);
    }
  }

  lemma KeepCleans(c: Config, s: State, s': State, actor: Actor, todo: seq<Eip>)
    requires Cleans(c, s, actor, todo) && StoreInv(c, s) && StoreInv(c, s')
    requires Rely(s, s', actor.Owner())
    ensures Cleans(c, s', actor, todo)
  {
    KeepActor(c, s, s', actor);
    KeepCovered(c, s, s', actor, todo);
    forall i | 0 <= i < |todo| ensures Target(c, s', actor, todo[i]) {
      KeepTarget(c, s, s', actor, todo[i]);
    }
  }

  lemma KeepHead(s: State, s': State, o: Owner, todo: seq<Eip>, allowed: Option<nat>)
    requires HeadAssociation(s, todo, allowed) && todo[0] in s.kube.eipLog && Mine(o, todo[0]) && Rely(s, s', o)
    ensures HeadAssociation(s', todo, allowed)
  {
  }

  lemma KeepCleansHead(c: Config, s: State, s': State, actor: Actor, todo: seq<Eip>, allowed: Option<nat>)
    requires Cleans(c, s, actor, todo) && HeadAssociation(s, todo, allowed) && StoreInv(c, s) && StoreInv(c, s')
    requires Rely(s, s', actor.Owner())
    ensures Cleans(c, s', actor, todo) && HeadAssociation(s', todo, allowed)
  {
    hide StoreInv, HeadAssociation, Covered, ActorCleaning, Rely;
    KeepCleans(c, s, s', actor, todo);
    HeadIsThere(s, todo, allowed);
    assert Target(c, s, actor, todo[0]);
    KeepHead(s, s', actor.Owner(), todo, allowed);
  }

  lemma HeadIsThere(s: State, todo: seq<Eip>, allowed: Option<nat>)
    requires HeadAssociation(s, todo, allowed)
    ensures todo != []
  {
  }

  lemma KeepAssociated(s: State, s': State, o: Owner, e: Eip, association: nat)
    requires Associated(s, e, association) && Rely(s, s', o)
    ensures Associated(s', e, association)
  {
  }

  lemma KeepCleanupTask(c: Config, s: State, s': State, o: Owner, t: Task)
    requires CleanupTask(t) && TaskOk(c, s, o, t) && StoreInv(c, s) && StoreInv(c, s')
    requires Rely(s, s', o)
    ensures TaskOk(c, s', o, t)
  {
    hide StoreInv, Applying, Cleaning, Attaching, Remaining, Found, NoAddress, Stray, Outdated, ActorApplying,
         Cleans, HeadAssociation, Associated, ActorCleaning, Rely;
    match t {
      case CleanupList(actor) => KeepActor(c, s, s', actor);
      case CleanupDescribe(actor, todo) => KeepCleans(c, s, s', actor, todo);
      case CleanupDisassociate(actor, todo, id) =>
        KeepCleansHead(c, s, s', actor, todo, Some(id));
        HeadIsThere(s, todo, Some(id));
        KeepAssociated(s, s', o, todo[0], id);
      case CleanupDetach(actor, todo) => KeepCleansHead(c, s, s', actor, todo, None);
      case CleanupTail(actor) => KeepCleans(c, s, s', actor, []);
      case Finalize(actor) => KeepCleans(c, s, s', actor, []);
      case _ =>
    }
  }

  /** A task keeps what it knows while others act. */
  lemma KeepTask(c: Config, s: State, s': State, o: Owner, t: Task)
    requires TaskOk(c, s, o, t) && StoreInv(c, s) && StoreInv(c, s')
    requires Rely(s, s', o)
    ensures TaskOk(c, s', o, t)
  {
    if EipTask(t) {
      KeepEipTask(c, s, s', o, t);
    } else if CleanupTask(t) {
      KeepCleanupTask(c, s, s', o, t);
    } else {
      KeepApplyTask(c, s, s', o, t);
    }
  }

  ghost predicate RelyOthers(s: State, s': State, actor: Owner) {
    forall o {:trigger Rely(s, s', o)} :: o != actor ==> Rely(s, s', o)
  }

  /** Combine: the stores are kept well, others may rely on the change, and the acting task is fine. */
  lemma KeepTasks(c: Config, s: State, s': State, actor: Owner)
    requires StoreInv(c, s) && TasksOk(c, s) && StoreInv(c, s')
    requires RelyOthers(s, s', actor)
    requires forall o :: o in s'.tasks && o != actor ==> o in s.tasks && s'.tasks[o] == s.tasks[o]
    requires actor in s'.tasks ==> TaskOk(c, s', actor, s'.tasks[actor])
    ensures TasksOk(c, s')
  {
    forall o | o in s'.tasks ensures TaskOk(c, s', o, s'.tasks[o]) {
      if o != actor {
        assert Rely(s, s', o);
        KeepTask(c, s, s', o, s.tasks[o]);
      }
    }
  }
}
