/** Which calls strand an address at a node, whatever else is running. */
module StrandingSteps {
  import opened Base
  import opened Protocol
  import opened Invariants
  import opened Runs
  import opened Calls
  import opened EipSteps
  import opened Settling
  import opened Limits
  import opened PodAddresses
  import Safety
  import Kube
  import Aws

  /** The call strands the address of `key` at the place, where `name` does not claim it: an associate while
      `name` does not claim the Eip; or the swap of the node's reconcile when it is not ready, or of the Eip's own
      when its listing lacks the node, which clear the claim and leave the address. */
  ghost predicate StrandingCall(s: State, t: Task, key: Key, name: string, place: (string, string))
    requires key in s.kube.eips
  {
    var e := s.kube.eips[key];
    if Sits(s, e, place) then
      && ClaimedFor(s, key, name) && Swaps(t, e)
      && ((t.NotReady? && t.node.name == name) || (t.EipDetach? && name !in t.listed))
    else
      && t.Associate? && t.actor.Ip() == Some(place.1) && t.eni == place.0
      && e.AllocationId().Some? && t.eip.AllocationId() == e.AllocationId() && e.AllocationId().value in s.aws.addrs
      && !ClaimedFor(s, key, name)
  }

  /** The swap is from the current object. */
  predicate Swaps(t: Task, e: Eip) {
    (t.NotReady? || t.EipDetach?) && t.eip == e
  }

  // ---- The address ----

  /** An address comes to a place only by an associate. */
  lemma OnlyAssociateBrings(a: Aws.Cloud, t: Task, choice: Choice, x: nat, place: (string, string))
    requires x != a.next && (x in a.addrs ==> !a.addrs[x].At(place.0, place.1))
    ensures var a' := AwsAfter(a, t, choice);
            x in a'.addrs && a'.addrs[x].At(place.0, place.1) <==>
              t.Associate? && t.actor.Ip() == Some(place.1) && t.eni == place.0 && t.eip.AllocationId() == Some(x)
                  && x in a.addrs
  {
  }

  /** The swaps, and every call on the Kubernetes store, leave the addresses alone. */
  lemma SwapKeepsAws(a: Aws.Cloud, t: Task, choice: Choice)
    ensures t.NotReady? || t.EipDetach? ==> AwsAfter(a, t, choice) == a
    ensures t.Associate? ==> forall k :: KubeAfter(k, t) == k
  {
  }

  // ---- The claim ----

  /** A cleanup clears a claim only once the address is off. */
  lemma CleanupIsLoose(c: Config, s: State, o: Owner, t: Task, e: Eip, place: (string, string))
    requires TaskOk(c, s, o, t) && t.CleanupDetach? && t.todo != [] && t.todo[0] == e
    ensures !Sits(s, e, place)
  {
    hide Covered, ActorCleaning, Targets;
  }

  lemma SwapClears(c: Config, s: State, t: Task, key: Key)
    requires StoreInv(c, s) && key in s.kube.eips && Swaps(t, s.kube.eips[key]) && s.kube.eips[key].status.Some?
    ensures key in KubeAfter(s.kube, t).eips && KubeAfter(s.kube, t).eips[key].ResourceId() == None
  {
    hide LogOk, LinksOk, AwsOk, OnePerUid, WatchOk, PodsOk;
  }

  /** What is known of a call of `o` between two states in which the Eip is the same object. */
  ghost predicate Between(c: Config, s: State, o: Owner, choice: Choice, s': State, key: Key) {
    && StoreInv(c, s) && o in s.tasks && TaskOk(c, s, o, s.tasks[o]) && Safety.SameEip(s, s', key)
    && s'.kube == KubeAfter(s.kube, s.tasks[o]) && s'.aws == AwsAfter(s.aws, s.tasks[o], choice)
    && s.kube.eips[key].AllocationId().Some? && s'.kube.eips[key].AllocationId() == s.kube.eips[key].AllocationId()
    && s.kube.eips[key].AllocationId().value != s.aws.next
  }

  lemma CallStrands(c: Config, s: State, o: Owner, choice: Choice, s': State, key: Key, name: string,
                    place: (string, string))
    requires Between(c, s, o, choice, s', key) && !AttachedUnclaimed(s, key, name, place)
    ensures AttachedUnclaimed(s', key, name, place) <==> StrandingCall(s, s.tasks[o], key, name, place)
  {
    hide StoreInv, TaskOk, KubeAfter, AwsAfter;
    var t, e := s.tasks[o], s.kube.eips[key];
    var x := e.AllocationId().value;
    SwapKeepsAws(s.aws, t, choice);
    if Sits(s, e, place) {
      Safety.ClaimChange(c, s, o, t, key);
      if t.CleanupDetach? && t.todo != [] && t.todo[0] == e {
        CleanupIsLoose(c, s, o, t, e, place);
      }
      if Swaps(t, e) {
        SwapClears(c, s, t, key);
      }
    } else {
      OnlyAssociateBrings(s.aws, t, choice, x, place);
    }
  }

  // ---- Addresses that are not recorded yet ----

  /** The address of an Eip that has none recorded is on no interface. */
  ghost predicate UnrecordedLoose(s: State, key: Key) {
    key in s.kube.eips && s.kube.eips[key].AllocationId() == None ==>
      forall x :: x in s.aws.addrs && s.aws.addrs[x].uid == s.kube.eips[key].uid ==> s.aws.addrs[x].association == None
  }

  ghost predicate AllUnrecordedLoose(s: State) {
    forall key {:trigger UnrecordedLoose(s, key)} :: key in s.kube.eips ==> UnrecordedLoose(s, key)
  }

  /** Whoever associates an address knows it from a copy, and the status never loses it. */
  lemma AssociateIsRecorded(c: Config, s: State, o: Owner, t: Task, key: Key, x: nat)
    requires StoreInv(c, s) && TaskOk(c, s, o, t) && t.Associate? && t.eip.AllocationId() == Some(x)
    requires x in s.aws.addrs && key in s.kube.eips && s.kube.eips[key].uid == s.aws.addrs[x].uid
    ensures s.kube.eips[key].AllocationId() == Some(x)
  {
    hide LogOk, CurrentOk, OnePerUid, WatchOk, PodsOk;
    assert AllocationOk(s, t.eip);
    SameAsCopy(c, s, t.eip, key);
  }

  lemma CallKeepsUnrecorded(c: Config, s: State, o: Owner, choice: Choice, s': State, key: Key)
    requires Inv(c, s) && Inv(c, s') && AllUnrecordedLoose(s) && o in s.tasks
    requires s'.kube == KubeAfter(s.kube, s.tasks[o]) && s'.aws == AwsAfter(s.aws, s.tasks[o], choice)
    requires s.kube.eipLog <= s'.kube.eipLog && key in s'.kube.eips
    ensures UnrecordedLoose(s', key)
  {
    hide StoreInv, PhaseOk, TaskOk, KubeAfter, AwsAfter;
    var e', t := s'.kube.eips[key], s.tasks[o];
    assert TaskOk(c, s, o, t);
    forall x | e'.AllocationId() == None && x in s'.aws.addrs && s'.aws.addrs[x].uid == e'.uid
      ensures s'.aws.addrs[x].association == None
    {
      if s'.aws.addrs[x].association.Some? {
        FreshAllocation(c, s);
        CallAssociates(s.aws, t, choice, x);
        AddressUids(c, s, x);
        Safety.CurrentKeys(c, s);
        Safety.UidsCall(s.kube, t);
        assert UnrecordedLoose(s, key);
        if s.kube.eips[key].AllocationId().Some? {
          AllocationStays(c, s, s', key);
        } else {
          AssociateIsRecorded(c, s, o, t, key, x);
        }
      }
    }
  }

  lemma UnrecordedStep(c: Config, s: State, step: Step)
    requires Inv(c, s) && AllUnrecordedLoose(s) && Next(c, s, step).Some?
    ensures AllUnrecordedLoose(Next(c, s, step).value)
  {
    hide Inv, Next, RunTask, KubeAfter, AwsAfter, UnrecordedLoose;
    var s' := Next(c, s, step).value;
    InvStep(c, s, step);
    Safety.LaterStep(c, s, step);
    forall key | key in s'.kube.eips ensures UnrecordedLoose(s', key) {
      if step.Run? {
        RunIs(c, s, step);
        CallEffect(c, s, step.owner, s.tasks[step.owner], step.choice);
        CallKeepsUnrecorded(c, s, step.owner, step.choice, s', key);
      } else {
        OutsideKeepsUnrecorded(c, s, step, key);
      }
    }
  }

  lemma OutsideKeepsUnrecorded(c: Config, s: State, step: Step, key: Key)
    requires Inv(c, s) && AllUnrecordedLoose(s) && Next(c, s, step).Some? && !step.Run?
    requires key in Next(c, s, step).value.kube.eips
    ensures UnrecordedLoose(Next(c, s, step).value, key)
  {
    hide Next, StoreInv, PhaseOk, TasksOk;
    var s' := Next(c, s, step).value;
    AreKeyed(c, s);
    OutsideKeeps(c, s, step, key);
    PodAddresses.OutsideAws(c, s, step);
    assert key in s.kube.eips ==> UnrecordedLoose(s, key);
    forall x | x in s.aws.addrs ensures s.aws.addrs[x].uid < s.kube.next {
      AddressUids(c, s, x);
    }
  }

  lemma {:induction false} UnrecordedRun(c: Config, s: State, run: seq<Step>)
    requires Inv(c, s) && AllUnrecordedLoose(s) && CanRun(c, s, run)
    ensures AllUnrecordedLoose(After(c, s, run))
    decreases |run|
  {
    hide Next, Inv, AllUnrecordedLoose;
    if run != [] {
      UnrecordedStep(c, s, run[0]);
      InvStep(c, s, run[0]);
      UnrecordedRun(c, Next(c, s, run[0]).value, run[1..]);
    }
  }

  lemma ReachableUnrecorded(c: Config, s: State, key: Key)
    requires Reachable(c, s)
    ensures UnrecordedLoose(s, key)
  {
    hide Next, Inv;
    InitInv(c);
    var run :| CanRun(c, Init(), run) && After(c, Init(), run) == s;
    UnrecordedRun(c, Init(), run);
    assert key in s.kube.eips ==> UnrecordedLoose(s, key);
  }

  /** So no address is found at a place by recording it. */
  lemma RecordStrandsNone(c: Config, s: State, o: Owner, choice: Choice, s': State, key: Key, place: (string, string))
    requires StoreInv(c, s) && StoreInv(c, s') && UnrecordedLoose(s, key) && o in s.tasks && Safety.SameEip(s, s', key)
    requires s'.kube == KubeAfter(s.kube, s.tasks[o]) && s'.aws == AwsAfter(s.aws, s.tasks[o], choice)
    requires s.kube.eips[key].AllocationId() == None
    ensures !Sits(s', s'.kube.eips[key], place)
  {
    hide StoreInv, AwsAfter, KubeAfter;
    if Sits(s', s'.kube.eips[key], place) {
      var x := s'.kube.eips[key].AllocationId().value;
      FreshAllocation(c, s);
      SwapKeepsAws(s.aws, s.tasks[o], choice);
      CallAssociates(s.aws, s.tasks[o], choice, x);
      RecordedUid(c, s', key);
    }
  }

  lemma RecordedUid(c: Config, s: State, key: Key)
    requires StoreInv(c, s) && key in s.kube.eips && s.kube.eips[key].AllocationId().Some?
    requires s.kube.eips[key].AllocationId().value in s.aws.addrs
    ensures s.aws.addrs[s.kube.eips[key].AllocationId().value].uid == s.kube.eips[key].uid
  {
    hide LogOk, OnePerUid, WatchOk, PodsOk;
    assert AllocationOk(s, s.kube.eips[key]);
  }

  // ---- Steps ----

  lemma AllocatedIsOld(c: Config, s: State, key: Key)
    requires StoreInv(c, s) && key in s.kube.eips && s.kube.eips[key].AllocationId().Some?
    ensures s.kube.eips[key].AllocationId().value != s.aws.next
  {
    hide LogOk, OnePerUid, WatchOk, PodsOk;
    assert AllocationOk(s, s.kube.eips[key]);
  }

  /** The allocation of the same object stays. */
  lemma AllocationStays(c: Config, s: State, s': State, key: Key)
    requires StoreInv(c, s) && StoreInv(c, s') && s.kube.eipLog <= s'.kube.eipLog && Safety.SameEip(s, s', key)
    requires s.kube.eips[key].AllocationId().Some?
    ensures s'.kube.eips[key].AllocationId() == s.kube.eips[key].AllocationId()
  {
    hide StoreInv;
    SameObject(c, s, s', key);
  }

  /** In every run, exactly these calls strand an address that was not stranded before: no other call does, no
      cleanup, and nothing that users, the cluster or the process do. */
  lemma OnlyTheseStrand(c: Config, s: State, step: Step, key: Key, name: string, place: (string, string))
    requires Reachable(c, s) && Next(c, s, step).Some? && Safety.SameEip(s, Next(c, s, step).value, key)
    requires !AttachedUnclaimed(s, key, name, place)
    ensures AttachedUnclaimed(Next(c, s, step).value, key, name, place) <==>
              step.Run? && step.owner in s.tasks && StrandingCall(s, s.tasks[step.owner], key, name, place)
  {
    hide StoreInv, PhaseOk, TaskOk, Next, RunTask, KubeAfter, AwsAfter, Sits;
    var s' := Next(c, s, step).value;
    ReachableInv(c, s);
    InvStep(c, s, step);
    Safety.LaterStep(c, s, step);
    if step.Run? {
      RunIs(c, s, step);
      CallEffect(c, s, step.owner, s.tasks[step.owner], step.choice);
      if s.kube.eips[key].AllocationId().Some? {
        AllocationStays(c, s, s', key);
        AllocatedIsOld(c, s, key);
        CallStrands(c, s, step.owner, step.choice, s', key, name, place);
      } else {
        ReachableUnrecorded(c, s, key);
        RecordStrandsNone(c, s, step.owner, step.choice, s', key, place);
        NoPlaceYet(s, key, place);
      }
    } else {
      OutsideStrandsNone(c, s, step, key, name, place);
    }
  }

  lemma NoPlaceYet(s: State, key: Key, place: (string, string))
    requires key in s.kube.eips && s.kube.eips[key].AllocationId() == None
    ensures !Sits(s, s.kube.eips[key], place)
  {
  }

  lemma RunIs(c: Config, s: State, step: Step)
    requires step.Run? && Next(c, s, step).Some?
    ensures step.owner in s.tasks && RunTask(c, s, step.owner, s.tasks[step.owner], step.choice) == Next(c, s, step)
  {
    hide RunTask;
  }

  lemma OutsideStrandsNone(c: Config, s: State, step: Step, key: Key, name: string, place: (string, string))
    requires Inv(c, s) && Next(c, s, step).Some? && !step.Run? && Safety.SameEip(s, Next(c, s, step).value, key)
    ensures AttachedUnclaimed(Next(c, s, step).value, key, name, place) <==> AttachedUnclaimed(s, key, name, place)
  {
    hide Next, StoreInv, PhaseOk, TasksOk;
    AreKeyed(c, s);
    CurrentIsOld(c, s, key);
    OutsideKeeps(c, s, step, key);
    PodAddresses.OutsideAws(c, s, step);
  }

  lemma CurrentIsOld(c: Config, s: State, key: Key)
    requires Inv(c, s) && key in s.kube.eips
    ensures s.kube.eips[key].uid < s.kube.next
  {
    hide AwsOk, OnePerUid, LinksOk, WatchOk, PodsOk, TasksOk, PhaseOk;
  }
}
