/**
 The invariant holds in every state of every run. What is not a call of a task is dealt with here: users,
 the cluster, starts of reconciles, failures, crashes and sweeps.
 */
module Runs {
  import opened Base
  import opened Protocol
  import opened Invariants
  import opened Interference
  import opened Effects
  import opened EipSteps
  import opened ActorSteps
  import Kube
  import Aws

  lemma InitInv(c: Config)
    ensures Inv(c, Init())
  {
  }

  // ---- Users, the cluster and the controllers' finalizers ----

  /** A change of the stores by nobody's task. */
  lemma Outside(c: Config, s: State, s': State)
    requires Inv(c, s) && StoreInv(c, s') && s'.tasks == s.tasks && s'.phase == s.phase
    requires forall o {:trigger Rely(s, s', o)} :: Rely(s, s', o)
    requires s'.aws == s.aws
    ensures Inv(c, s')
  {
    hide LogOk, CurrentOk, LinksOk, WatchOk, PodsOk, AwsOk, OnePerUid;
    forall o | o in s'.tasks ensures TaskOk(c, s', o, s'.tasks[o]) {
      assert Rely(s, s', o) && TaskOk(c, s, o, s.tasks[o]);
      KeepTask(c, s, s', o, s.tasks[o]);
    }
  }

  lemma CreateStep(c: Config, s: State, key: Key, selector: Selector)
    requires Inv(c, s) && key !in s.kube.eips
    ensures Inv(c, Create(s, key, selector))
  {
    hide LogOk, CurrentOk, LinksOk, WatchOk, PodsOk, AwsOk, OnePerUid, PhaseOk, TasksOk;
    CreateInv(c, s, key, selector);
    forall o ensures Rely(s, Create(s, key, selector), o) {
      CreateRely(s, key, selector, o);
    }
    Outside(c, s, Create(s, key, selector));
  }

  lemma DeleteStep(c: Config, s: State, key: Key)
    requires Inv(c, s)
    ensures Inv(c, s.(kube := Kube.DeleteEip(s.kube, key)))
  {
    hide LogOk, CurrentOk, LinksOk, WatchOk, PodsOk, AwsOk, OnePerUid, PhaseOk, TasksOk;
    var s' := s.(kube := Kube.DeleteEip(s.kube, key));
    DeleteOk(c, s, key, NodeOwner);
    forall o ensures Rely(s, s', o) {
      DeleteOk(c, s, key, o);
    }
    Outside(c, s, s');
  }

  lemma FinalizerStep(c: Config, s: State, key: Key)
    requires Inv(c, s) && key in s.kube.eips && !s.kube.eips[key].deleting
    ensures Inv(c, Put(s, s.kube.eips[key].(finalizer := true)))
  {
    hide LogOk, LinksOk, WatchOk, PodsOk, AwsOk, OnePerUid, PhaseOk, TasksOk;
    var e := s.kube.eips[key].(finalizer := true);
    assert e.key == key;
    MarkDeleting(c, s, key);
    PutInv(c, s, e);
    forall o ensures Rely(s, Put(s, e), o) {
      PutRely(c, s, e, o);
    }
    Outside(c, s, Put(s, e));
  }

  lemma PodStep(c: Config, s: State, p: Pod)
    requires Inv(c, s) && GoodPod(c, s, p)
    ensures Inv(c, PodPut(s, p))
  {
    hide LogOk, CurrentOk, LinksOk, WatchOk, PodsOk, AwsOk, OnePerUid, PhaseOk, TasksOk;
    PutPodInv(c, s, p);
    forall o ensures Rely(s, PodPut(s, p), o) {
      PutPodRely(c, s, p, o);
    }
    Outside(c, s, PodPut(s, p));
  }

  lemma RemovePodStep(c: Config, s: State, key: Key)
    requires Inv(c, s) && key in s.kube.pods && !s.kube.pods[key].finalizer
    ensures Inv(c, PodRemoved(s, key))
  {
    hide LogOk, CurrentOk, LinksOk, WatchOk, PodsOk, AwsOk, OnePerUid, PhaseOk, TasksOk;
    RemovePodInv(c, s, key);
    forall o ensures Rely(s, PodRemoved(s, key), o) {
      RemovePodRely(s, key, o);
    }
    Outside(c, s, PodRemoved(s, key));
  }

  lemma PodKeys(c: Config, s: State)
    requires Inv(c, s)
    ensures forall key :: key in s.kube.pods ==> s.kube.pods[key].key == key
  {
  }

  lemma EnvironmentStep(c: Config, s: State, step: Step)
    requires Inv(c, s) && Environment(c, s, step).Some?
    ensures Inv(c, Environment(c, s, step).value)
  {
    hide LogOk, CurrentOk, LinksOk, WatchOk, PodsOk, AwsOk, OnePerUid, PhaseOk, TasksOk;
    PodKeys(c, s);
    match step {
      case UserCreatesEip(key, selector) => CreateStep(c, s, key, selector);
      case UserDeletesEip(key) => DeleteStep(c, s, key);
      case PodAppears(key, autocreate) =>
        PodStep(c, s, Pod(key, s.kube.next, 0, false, false, autocreate, None, None, None, None));
      case PodChanges(key, ip, nodeName, eni) =>
        PodStep(c, s, s.kube.pods[key].(ip := ip, nodeName := nodeName, eni := eni));
      case PodDeleted(key) =>
        if !s.kube.pods[key].finalizer {
          RemovePodStep(c, s, key);
        } else if !s.kube.pods[key].deleting {
          PodStep(c, s, s.kube.pods[key].(deleting := true));
        }
      case NodesChange(nodes) =>
        NodesOk(c, s, nodes);
        Outside(c, s, s.(kube := s.kube.(nodes := nodes)));
      case _ =>
    }
  }

  // ---- Starting tasks ----

  lemma StartEipStep(c: Config, s: State, e: Eip)
    requires Inv(c, s) && Start(c, s, StartEip(e)).Some?
    ensures Inv(c, Start(c, s, StartEip(e)).value)
  {
    hide LogOk, CurrentOk, LinksOk, PodsOk, AwsOk, OnePerUid, TasksOk;
    var s' := Start(c, s, StartEip(e)).value;
    SeeEipInv(c, s, e);
    forall o | o != EipOwner(e.key) ensures Rely(s, SeeEip(s, e), o) {
      SeeEipRely(s, e, o);
    }
    assert Startable(s, e) ==> Alive(s, e) && e.uid !in s.condemned;
    StartEipTask(c, s, e);
    Advance(c, s, SeeEip(s, e), s', EipOwner(e.key));
  }

  lemma StartEipTask(c: Config, s: State, e: Eip)
    requires Start(c, s, StartEip(e)).Some? && (Startable(s, e) ==> Alive(s, e) && e.uid !in s.condemned)
    ensures TaskNow(c, Start(c, s, StartEip(e)).value, EipOwner(e.key))
  {
  }

  lemma StartPodStep(c: Config, s: State, p: Pod)
    requires Inv(c, s) && Start(c, s, StartPod(p)).Some?
    ensures Inv(c, Start(c, s, StartPod(p)).value)
  {
    hide LogOk, CurrentOk, LinksOk, WatchOk, AwsOk, OnePerUid, TasksOk;
    var s' := Start(c, s, StartPod(p)).value;
    SeePodInv(c, s, p);
    forall o | o != PodOwner(p.key) ensures Rely(s, SeePod(s, p), o) {
      SeePodRely(s, p, o);
    }
    assert PodStartable(s, p) ==> PodAlive(s, p);
    StartPodTask(c, s, p);
    Advance(c, s, SeePod(s, p), s', PodOwner(p.key));
  }

  lemma StartPodTask(c: Config, s: State, p: Pod)
    requires Start(c, s, StartPod(p)).Some? && (PodStartable(s, p) ==> PodAlive(s, p))
    ensures TaskNow(c, Start(c, s, StartPod(p)).value, PodOwner(p.key))
  {
  }

  lemma StartStep(c: Config, s: State, step: Step)
    requires Inv(c, s) && Start(c, s, step).Some?
    ensures Inv(c, Start(c, s, step).value)
  {
    hide LogOk, LinksOk, WatchOk, PodsOk, AwsOk, OnePerUid, TasksOk;
    PodKeys(c, s);
    match step {
      case EipFinalizer(key) =>
        assert s.kube.eips[key].key == key;
        FinalizerStep(c, s, key);
      case PodFinalizer(key) => PodStep(c, s, s.kube.pods[key].(finalizer := true));
      case StartEip(e) => StartEipStep(c, s, e);
      case StartPod(p) => StartPodStep(c, s, p);
      case StartNode(n, gone) => AdvanceQuietly(c, s, Start(c, s, step).value, NodeOwner);
      case _ =>
    }
  }

  // ---- The process ----

  lemma ProcessInv(c: Config, s: State, s': State)
    requires Inv(c, s) && SameStores(s, s') && s'.tasks == map[] && PhaseOk(c, s')
    ensures Inv(c, s')
  {
    SameStoreInv(c, s, s');
  }

  /** The sweep finds no address of an Eip that is not listed. */
  lemma SweepFindsNothing(c: Config, s: State)
    requires Inv(c, s) && s.phase.Swept?
    ensures OrphansOf(c, s.kube, s.phase.found) == []
  {
    var found := s.phase.found;
    var orphans := OrphansOf(c, s.kube, found);
    forall x | x in found ensures !Orphaned(c, s.kube, found[x]) {
      assert Owned(c, s, x);
    }
  }

  lemma ProcessStep(c: Config, s: State, step: Step)
    requires Inv(c, s) && Process(c, s, step).Some?
    ensures Inv(c, Process(c, s, step).value)
  {
    hide LogOk, CurrentOk, LinksOk, WatchOk, PodsOk, AwsOk, OnePerUid, TasksOk, OrphansOf;
    if s.phase.Swept? {
      SweepFindsNothing(c, s);
    }
    ProcessInv(c, s, Process(c, s, step).value);
  }

  // ---- All steps ----

  lemma RunStep(c: Config, s: State, o: Owner, choice: Choice)
    requires Inv(c, s) && o in s.tasks && RunTask(c, s, o, s.tasks[o], choice).Some?
    ensures Inv(c, RunTask(c, s, o, s.tasks[o], choice).value)
  {
    hide LogOk, CurrentOk, LinksOk, WatchOk, PodsOk, AwsOk, OnePerUid, RunTask;
    var t := s.tasks[o];
    assert TaskOk(c, s, o, t);
    if CleanupTask(t) {
      CleanupStep(c, s, o, t, choice);
    } else if !EipTask(t) {
      ApplyStep(c, s, o, t, choice);
    } else if t.EipSweep? || t.EipRelease? || t.EipFinalize? {
      EipCleanupStep(c, s, o, t, choice);
    } else {
      EipApplyStep(c, s, o, t, choice);
    }
  }

  lemma StopStep(c: Config, s: State, o: Owner)
    requires Inv(c, s) && o in s.tasks
    ensures Inv(c, End(s, o))
  {
    hide LogOk, CurrentOk, LinksOk, WatchOk, PodsOk, AwsOk, OnePerUid, TasksOk;
    AdvanceQuietly(c, s, End(s, o), o);
  }

  /** Every step keeps the invariant. */
  lemma InvStep(c: Config, s: State, step: Step)
    requires Inv(c, s) && Next(c, s, step).Some?
    ensures Inv(c, Next(c, s, step).value)
  {
    hide LogOk, CurrentOk, LinksOk, WatchOk, PodsOk, AwsOk, OnePerUid, TasksOk, PhaseOk, RunTask, Start, Process,
         Environment;
    match step {
      case Run(o, choice) => RunStep(c, s, o, choice);
      case Stop(o) => StopStep(c, s, o);
      case Crash => ProcessStep(c, s, step);
      case SweepStep => ProcessStep(c, s, step);
      case EipFinalizer(_) => StartStep(c, s, step);
      case PodFinalizer(_) => StartStep(c, s, step);
      case StartEip(_) => StartStep(c, s, step);
      case StartPod(_) => StartStep(c, s, step);
      case StartNode(_, _) => StartStep(c, s, step);
      case _ => EnvironmentStep(c, s, step);
    }
  }

  lemma {:induction false} InvRun(c: Config, s: State, run: seq<Step>)
    requires Inv(c, s) && CanRun(c, s, run)
    ensures Inv(c, After(c, s, run))
    decreases |run|
  {
    hide Inv, Next;
    if run != [] {
      InvStep(c, s, run[0]);
      InvRun(c, Next(c, s, run[0]).value, run[1..]);
    }
  }

  /** A state the operator can reach from an empty cluster. */
  ghost predicate Reachable(c: Config, s: State) {
    exists run :: CanRun(c, Init(), run) && After(c, Init(), run) == s
  }

  lemma ReachableInv(c: Config, s: State)
    requires Reachable(c, s)
    ensures Inv(c, s)
  {
    hide Inv;
    var run :| CanRun(c, Init(), run) && After(c, Init(), run) == s;
    InitInv(c);
    InvRun(c, Init(), run);
  }
}
