/** In every reachable state the current object is the latest its watch can deliver, so that a reconcile from it
    can start. */
module Watches {
  import opened Base
  import opened Protocol
  import opened Atomic
  import opened Invariants
  import opened Calls
  import opened Runs
  import Kube

  /** No state of an object that was ever stored under a key is later than the object there now. */
  ghost predicate Latest(k: Kube.Store) {
    && (forall a :: a in k.eipLog ==> a.version < k.next && (a.key in k.eips ==> a.version <= k.eips[a.key].version))
    && (forall a :: a in k.podLog ==> a.version < k.next && (a.key in k.pods ==> a.version <= k.pods[a.key].version))
  }

  /** No watch is ahead of the objects. */
  ghost predicate SeenIsPast(s: State) {
    && (forall key :: key in s.seenEips ==>
          s.seenEips[key] < s.kube.next && (key in s.kube.eips ==> s.seenEips[key] <= s.kube.eips[key].version))
    && (forall key :: key in s.seenPods ==>
          s.seenPods[key] < s.kube.next && (key in s.kube.pods ==> s.seenPods[key] <= s.kube.pods[key].version))
  }

  /** Whatever is stored under a key is there unchanged, or gone, or newer than everything before. */
  ghost predicate Renews(k: Kube.Store, k': Kube.Store) {
    && k.next <= k'.next
    && (forall key :: key in k'.eips ==>
          (key in k.eips && k'.eips[key] == k.eips[key]) || k'.eips[key].version >= k.next)
    && (forall key :: key in k'.pods ==>
          (key in k.pods && k'.pods[key] == k.pods[key]) || k'.pods[key].version >= k.next)
    && (forall a :: a in k'.eipLog && a !in k.eipLog ==> a.version < k'.next && a.key in k'.eips && k'.eips[a.key] == a)
    && (forall a :: a in k'.podLog && a !in k.podLog ==> a.version < k'.next && a.key in k'.pods && k'.pods[a.key] == a)
  }

  lemma RenewsLatest(k: Kube.Store, k': Kube.Store)
    requires Latest(k) && Renews(k, k')
    ensures Latest(k')
  {
  }

  lemma RenewsSeen(s: State, s': State)
    requires SeenIsPast(s) && Renews(s.kube, s'.kube) && s'.seenEips == s.seenEips && s'.seenPods == s.seenPods
    ensures SeenIsPast(s')
  {
  }

  lemma PutEipRenews(k: Kube.Store, e: Eip)
    ensures Renews(k, Kube.PutEip(k, e))
  {
  }

  lemma PutPodRenews(k: Kube.Store, p: Pod)
    ensures Renews(k, Kube.PutPod(k, p))
  {
  }

  /** The same objects, or fewer. */
  lemma FewerRenews(k: Kube.Store, k': Kube.Store)
    requires k'.next == k.next && k'.eipLog == k.eipLog && k'.podLog == k.podLog
    requires forall key :: key in k'.eips ==> key in k.eips && k'.eips[key] == k.eips[key]
    requires forall key :: key in k'.pods ==> key in k.pods && k'.pods[key] == k.pods[key]
    ensures Renews(k, k')
  {
  }

  lemma DeleteRenews(k: Kube.Store, key: Key)
    ensures Renews(k, Kube.DeleteEip(k, key))
    ensures key in k.pods ==> Renews(k, Kube.DeletePod(k, key))
  {
    hide Renews, Kube.PutEip, Kube.PutPod;
    FewerRenews(k, k);
    if key in k.eips {
      FewerRenews(k, Kube.RemoveEip(k, key));
      PutEipRenews(k, k.eips[key].(deleting := true));
    }
    if key in k.pods {
      FewerRenews(k, Kube.RemovePod(k, key));
      PutPodRenews(k, k.pods[key].(deleting := true));
    }
  }

  lemma CreateRenews(k: Kube.Store, key: Key, selector: Selector)
    ensures Renews(k, Kube.CreateEip(k, key, selector))
  {
  }

  /** A status write, accepted or not. */
  lemma StatusRenews(k: Kube.Store, key: Key, status: Status)
    ensures key in k.eips ==> Renews(k, Kube.WriteStatus(k, key, status))
  {
    hide Renews, Kube.PutEip;
    FewerRenews(k, k);
    if key in k.eips {
      PutEipRenews(k, k.eips[key].(status := Some(status)));
    }
  }

  lemma AnnotateRenews(k: Kube.Store, key: Key, a: Annotation)
    ensures Renews(k, OrElse(Kube.Annotate(k, key, a), k))
  {
    hide Renews, Kube.PutPod;
    FewerRenews(k, k);
    if key in k.pods {
      PutPodRenews(k, k.pods[key].(annotation := Some(a)));
    }
  }

  lemma StatusCallRenews(k: Kube.Store, t: Task)
    requires t.EipRecord? || t.EipDetach? || t.NotReady? || t.CleanupDetach? || t.Claim? || t.RecordAssociation?
    ensures Renews(k, KubeAfter(k, t))
  {
    hide Renews, Kube.WriteStatus;
    FewerRenews(k, k);
    forall key, status ensures key in k.eips ==> Renews(k, Kube.WriteStatus(k, key, status)) {
      StatusRenews(k, key, status);
    }
  }

  lemma CallRenews(k: Kube.Store, t: Task)
    ensures Renews(k, KubeAfter(k, t))
  {
    hide Renews, Kube.PutPod, Kube.PutEip, Kube.CreateEip, Kube.DeleteEip;
    FewerRenews(k, k);
    match t {
      case EipFinalize(e) => FewerRenews(k, Kube.RemoveEip(k, e.key));
      case PodCreateEip(p) => CreateRenews(k, p.key, PodSelector(p.key.name));
      case PodAnnotate(p, alloc, publicIp) => AnnotateRenews(k, p.key, Annotation(alloc, publicIp));
      case CleanupTail(actor) =>
        DeleteRenews(k, if actor.PodActor? then actor.pod.key else Key("", ""));
        FewerRenews(k, OrElse(Kube.LabelNode(k, actor.Name(), "false"), k));
      case Finalize(actor) => FewerRenews(k, if actor.PodActor? then Kube.RemovePod(k, actor.pod.key) else k);
      case EipRecord(_, _, _) => StatusCallRenews(k, t);
      case EipDetach(_, _) => StatusCallRenews(k, t);
      case NotReady(_, _) => StatusCallRenews(k, t);
      case CleanupDetach(_, _) => StatusCallRenews(k, t);
      case Claim(_, _, _, _) => StatusCallRenews(k, t);
      case RecordAssociation(_, _, _, _) => StatusCallRenews(k, t);
      case _ =>
    }
  }

  lemma OutsideRenews(c: Config, s: State, step: Step)
    requires Next(c, s, step).Some? && !step.Run?
    ensures Renews(s.kube, Next(c, s, step).value.kube)
  {
    hide RunTask, OrphansOf, Renews, Kube.PutPod, Kube.PutEip, Kube.CreateEip, Kube.DeleteEip, Kube.DeletePod;
    var k := s.kube;
    FewerRenews(k, k);
    match step {
      case UserCreatesEip(key, selector) => CreateRenews(k, key, selector);
      case UserDeletesEip(key) => DeleteRenews(k, key);
      case PodAppears(key, autocreate) => PutPodRenews(k,
                                                       Pod(key, k.next, 0, false, false, autocreate, None, None, None,
                                                           None));
      case PodChanges(key, ip, nodeName, eni) => PutPodRenews(k,
                                                              k.pods[key].(ip := ip, nodeName := nodeName, eni := eni));
      case PodDeleted(key) => DeleteRenews(k, key);
      case NodesChange(nodes) => FewerRenews(k, k.(nodes := nodes));
      case EipFinalizer(key) => PutEipRenews(k, k.eips[key].(finalizer := true));
      case PodFinalizer(key) => PutPodRenews(k, k.pods[key].(finalizer := true));
      case _ =>
    }
  }

  lemma WatchStep(c: Config, s: State, step: Step)
    requires Inv(c, s) && Latest(s.kube) && SeenIsPast(s) && Next(c, s, step).Some?
    ensures Latest(Next(c, s, step).value.kube) && SeenIsPast(Next(c, s, step).value)
  {
    hide RunTask, OrphansOf, KubeAfter, AwsAfter, StoreInv, TasksOk, PhaseOk, Renews;
    var s' := Next(c, s, step).value;
    if step.Run? {
      CallEffect(c, s, step.owner, s.tasks[step.owner], step.choice);
      CallRenews(s.kube, s.tasks[step.owner]);
    } else {
      OutsideRenews(c, s, step);
    }
    RenewsLatest(s.kube, s'.kube);
    if step.StartEip? || step.StartPod? {
      StartSees(c, s, step);
    } else {
      SameSeen(c, s, step);
      RenewsSeen(s, s');
    }
  }

  lemma StartSees(c: Config, s: State, step: Step)
    requires Latest(s.kube) && SeenIsPast(s) && (step.StartEip? || step.StartPod?) && Start(c, s, step).Some?
    ensures SeenIsPast(Start(c, s, step).value)
  {
  }

  lemma SameSeen(c: Config, s: State, step: Step)
    requires Next(c, s, step).Some? && !step.StartEip? && !step.StartPod?
    ensures Next(c, s, step).value.seenEips == s.seenEips && Next(c, s, step).value.seenPods == s.seenPods
  {
    hide RunTask, OrphansOf, KubeAfter, AwsAfter;
    if step.Run? {
      CallEffect(c, s, step.owner, s.tasks[step.owner], step.choice);
    }
  }

  lemma {:induction false} WatchRun(c: Config, s: State, run: seq<Step>)
    requires Inv(c, s) && Latest(s.kube) && SeenIsPast(s) && CanRun(c, s, run)
    ensures Latest(After(c, s, run).kube) && SeenIsPast(After(c, s, run))
    decreases |run|
  {
    hide Next, Inv, Latest, SeenIsPast;
    if run != [] {
      WatchStep(c, s, run[0]);
      InvStep(c, s, run[0]);
      WatchRun(c, Next(c, s, run[0]).value, run[1..]);
    }
  }

  lemma ReachableWatches(c: Config, s: State)
    requires Reachable(c, s)
    ensures Latest(s.kube) && SeenIsPast(s)
  {
    hide Next, Inv;
    InitInv(c);
    var run :| CanRun(c, Init(), run) && After(c, Init(), run) == s;
    WatchRun(c, Init(), run);
  }

  /** The current Eip can be reconciled as soon as nobody is at it. */
  lemma EipCanStart(c: Config, s: State, key: Key)
    requires Reachable(c, s) && s.phase.Running? && EipOwner(key) !in s.tasks
    requires key in s.kube.eips && s.kube.eips[key].finalizer && c.InScope(key.ns)
    ensures Start(c, s, StartEip(s.kube.eips[key])).Some?
  {
    hide LogOk, LinksOk, AwsOk, OnePerUid, WatchOk, PodsOk, TasksOk, PhaseOk;
    ReachableInv(c, s);
    ReachableWatches(c, s);
  }

  lemma PodCanStart(c: Config, s: State, key: Key)
    requires Reachable(c, s) && s.phase.Running? && PodOwner(key) !in s.tasks
    requires key in s.kube.pods && s.kube.pods[key].finalizer && c.InScope(key.ns)
    ensures Start(c, s, StartPod(s.kube.pods[key])).Some?
  {
    hide LogOk, CurrentOk, LinksOk, AwsOk, OnePerUid, WatchOk, TasksOk, PhaseOk;
    ReachableInv(c, s);
    ReachableWatches(c, s);
  }
}
