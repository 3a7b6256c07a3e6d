/** What each call of a task does to the two stores, apart from what the task does next. */
module Calls {
  import opened Base
  import opened Protocol
  import Kube
  import Aws

  /** The Kubernetes store after the call; a refused write changes nothing. */
  function KubeAfter(k: Kube.Store, t: Task): Kube.Store {
    match t
    case EipRecord(e, alloc, publicIp) => OrElse(Kube.SetStatusCreated(k, e.key, alloc, publicIp), k)
    case EipDetach(e, _) => OrElse(Kube.SetStatusDetached(k, e), k)
    case NotReady(_, e) => OrElse(Kube.SetStatusDetached(k, e), k)
    case CleanupDetach(_, todo) => if todo == [] then k else OrElse(Kube.SetStatusDetached(k, todo[0]), k)
    case EipFinalize(e) => Finalized(k, e)
    case PodCreateEip(p) => OrElse(Kube.CreateForPod(k, p.key), k)
    case Claim(actor, e, _, eni) =>
      if actor.Ip().Some? then OrElse(Kube.SetStatusShouldAttach(k, e, eni, actor.Ip().value, actor.Name()), k) else k
    case RecordAssociation(_, e, _, id) => OrElse(Kube.SetStatusAssociationId(k, e.key, id), k)
    case PodAnnotate(p, alloc, publicIp) => OrElse(Kube.Annotate(k, p.key, Annotation(alloc, publicIp)), k)
    case CleanupTail(actor) => Tail(k, actor)
    case Finalize(actor) => Gone(k, actor)
    case _ => k
  }

  /** The AWS store after the call. */
  function AwsAfter(a: Aws.Cloud, t: Task, choice: Choice): Aws.Cloud {
    match t
    case EipAllocate(e) => if choice.NewAddress? then Aws.Allocate(a, e.uid, e.key.ns, choice.publicIp) else a
    case EipDisassociate(e, _) => if e.AssociationId().Some? then Aws.Disassociate(a, e.AssociationId().value) else a
    case CleanupDisassociate(_, _, id) => Aws.Disassociate(a, id)
    case EipRelease(_, found) => Dropped(a, found)
    case Associate(actor, e, _, eni) => if actor.Ip().Some? then Attached(a, e, eni, actor.Ip().value) else a
    case _ => a
  }

  /** The stores change as stated, and nothing else changes but the tasks. */
  lemma CallEffect(c: Config, s: State, o: Owner, t: Task, choice: Choice)
    requires RunTask(c, s, o, t, choice).Some?
    ensures Effect(s, RunTask(c, s, o, t, choice).value, KubeAfter(s.kube, t), AwsAfter(s.aws, t, choice))
  {
    hide AfterEipDescribe, AfterEipAllocate, AfterEipRecord, AfterEipList, AfterEipDisassociate, AfterEipDetach,
         AfterEipSweep, AfterEipRelease, AfterEipFinalize, AfterPodCreateEip, AfterPodLocate, AfterPodList,
         AfterNodeList, AfterNotReady, AfterDescribe, AfterNodeLocate, AfterClaim, AfterAssociate,
         AfterRecordAssociation, AfterPodAnnotate, AfterCleanupList, AfterCleanupDescribe, AfterCleanupDisassociate,
         AfterCleanupDetach, AfterCleanupTail, AfterFinalize;
    hide OrElse, Finalized, Dropped, Attached, Tail, Gone;
  }
}
