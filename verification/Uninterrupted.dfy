/**
 Runs in which one owner's task makes its calls without anything in between.

 The methods of the controllers work on the two services directly. To each call that succeeds there belongs one
 step of the transition system, and to each call that fails the step that stops the task. The lemmas here extend
 a run by such a step: `Begin` starts a task, `Go` makes one of its calls, `Finish` the last one, and `Abort`
 gives up. The others are `Go` for the calls that pods and nodes share, with the states before and after spelled
 out, so that a method only has to name the call it has just made.
 */
module Uninterrupted {
  import opened Base
  import opened Protocol
  import Kube
  import Aws

  ghost predicate RunsTo(c: Config, s: State, run: seq<Step>, s': State) {
    CanRun(c, s, run) && After(c, s, run) == s'
  }

  /** The run leads from `s` to `m` with a task of `o` added, which is about to make the call of `t`. */
  ghost predicate Reaches(c: Config, s: State, run: seq<Step>, m: State, o: Owner, t: Task) {
    o !in m.tasks && RunsTo(c, s, run, Goto(m, o, t))
  }

  lemma OneMore(c: Config, s: State, run: seq<Step>, s': State, step: Step)
    requires RunsTo(c, s, run, s') && Next(c, s', step).Some?
    ensures RunsTo(c, s, run + [step], Next(c, s', step).value)
  {
    hide Next;
    assert [step][1..] == [] && CanRun(c, Next(c, s', step).value, []);
    assert CanRun(c, s', [step]) && After(c, s', [step]) == After(c, Next(c, s', step).value, []);
    RunOn(c, s, run, [step]);
  }

  lemma Begin(c: Config, s: State, step: Step, m: State, o: Owner, t: Task) returns (run: seq<Step>)
    requires (step.StartEip? || step.StartPod? || step.StartNode?) && o !in m.tasks
    requires Start(c, s, step) == Some(Goto(m, o, t))
    ensures Reaches(c, s, run, m, o, t)
  {
    hide Start;
    OneMore(c, s, [], s, step);
    run := [] + [step];
  }

  /** One call, after which the task goes on. */
  lemma Go(c: Config, s: State, run: seq<Step>, m: State, o: Owner, t: Task, choice: Choice, m': State, t': Task)
    returns (run': seq<Step>)
    requires Reaches(c, s, run, m, o, t) && m'.tasks == m.tasks
    requires RunTask(c, Goto(m, o, t), o, t, choice) == Some(Goto(Goto(m', o, t), o, t'))
    ensures Reaches(c, s, run', m', o, t')
  {
    hide RunTask;
    OneMore(c, s, run, Goto(m, o, t), Run(o, choice));
    run' := run + [Run(o, choice)];
    assert m.tasks[o := t][o := t'] == m.tasks[o := t'];
  }

  /** The last call of a task. */
  lemma Finish(c: Config, s: State, run: seq<Step>, m: State, o: Owner, t: Task, choice: Choice, m': State)
    returns (run': seq<Step>)
    requires Reaches(c, s, run, m, o, t) && m'.tasks == m.tasks
    requires RunTask(c, Goto(m, o, t), o, t, choice) == Some(End(Goto(m', o, t), o))
    ensures RunsTo(c, s, run', m')
  {
    hide RunTask;
    OneMore(c, s, run, Goto(m, o, t), Run(o, choice));
    run' := run + [Run(o, choice)];
    assert m.tasks[o := t] - {o} == m.tasks;
  }

  /** The task gives up before its next call. */
  lemma Abort(c: Config, s: State, run: seq<Step>, m: State, o: Owner, t: Task) returns (run': seq<Step>)
    requires Reaches(c, s, run, m, o, t)
    ensures RunsTo(c, s, run', m)
  {
    OneMore(c, s, run, Goto(m, o, t), Stop(o));
    run' := run + [Stop(o)];
    assert m.tasks[o := t] - {o} == m.tasks;
  }

  // ---- The calls that pod and node reconciles share ----

  lemma Describes(c: Config, s: State, run: seq<Step>, m: State, actor: Actor, e: Eip, eni: Option<string>)
    returns (run': seq<Step>)
    requires e.AllocationId().Some? && e.AllocationId().value in m.aws.addrs && (actor.PodActor? ==> eni.Some?)
    requires Reaches(c, s, run, m, actor.Owner(), Describe(actor, e, eni))
    ensures var address := m.aws.addrs[e.AllocationId().value];
            Reaches(c, s, run', m, actor.Owner(),
                    if actor.NodeActor? then NodeLocate(actor.node, e, address)
                       else Claim(actor, e, address, eni.value))
  {
    var address := m.aws.addrs[e.AllocationId().value];
    run' := Go(c, s, run, m, actor.Owner(), Describe(actor, e, eni), Plain, m,
               if actor.NodeActor? then NodeLocate(actor.node, e, address) else Claim(actor, e, address, eni.value));
  }

  lemma Locates(c: Config, s: State, run: seq<Step>, m: State, n: Node, e: Eip, address: Address, eni: string)
    returns (run': seq<Step>)
    requires n.ip.Some? && !address.At(eni, n.ip.value) && Reaches(c, s, run, m, NodeOwner, NodeLocate(n, e, address))
    ensures Reaches(c, s, run', m, NodeOwner, Claim(NodeActor(n), e, address, eni))
  {
    run' := Go(c, s, run, m, NodeOwner, NodeLocate(n, e, address), Interface(Some(eni)), m,
               Claim(NodeActor(n), e, address, eni));
  }

  lemma Claims(c: Config, s: State, run: seq<Step>, m: State, actor: Actor, e: Eip, address: Address, eni: string,
               k: Kube.Store)
    returns (run': seq<Step>)
    requires actor.Ip().Some? && e.AllocationId().Some?
    requires Kube.SetStatusShouldAttach(m.kube, e, eni, actor.Ip().value, actor.Name()) == Ok(k)
    requires Reaches(c, s, run, m, actor.Owner(), Claim(actor, e, address, eni))
    ensures Reaches(c, s, run', m.(kube := k), actor.Owner(),
                    if actor.PodActor? && address.At(eni, actor.Ip().value)
                    then PodAnnotate(actor.pod, e.AllocationId().value, address.publicIp)
                    else Associate(actor, e, address, eni))
  {
    run' := Go(c, s, run, m, actor.Owner(), Claim(actor, e, address, eni), Plain, m.(kube := k),
               if actor.PodActor? && address.At(eni, actor.Ip().value)
               then PodAnnotate(actor.pod, e.AllocationId().value, address.publicIp)
               else Associate(actor, e, address, eni));
  }

  lemma Associates(c: Config, s: State, run: seq<Step>, m: State, actor: Actor, e: Eip, address: Address, eni: string)
    returns (run': seq<Step>)
    requires actor.Ip().Some? && e.AllocationId().Some? && e.AllocationId().value in m.aws.addrs
    requires Reaches(c, s, run, m, actor.Owner(), Associate(actor, e, address, eni))
    ensures Reaches(c, s, run', m.(aws := Aws.Associate(m.aws, e.AllocationId().value, eni, actor.Ip().value)),
                    actor.Owner(),
                    RecordAssociation(actor, e, address, m.aws.next))
  {
    run' := Go(c, s, run, m, actor.Owner(), Associate(actor, e, address, eni), Plain,
               m.(aws := Aws.Associate(m.aws, e.AllocationId().value, eni, actor.Ip().value)),
               RecordAssociation(actor, e, address, m.aws.next));
  }

  // ---- The calls of a pod's or a node's cleanup ----

  lemma CleanupLists(c: Config, s: State, run: seq<Step>, m: State, actor: Actor, keys: seq<Key>)
    returns (run': seq<Step>)
    requires Kube.Lists(m.kube, actor.Ns(c), keys) && Reaches(c, s, run, m, actor.Owner(), CleanupList(actor))
    ensures Reaches(c, s, run', m, actor.Owner(), NextCleanup(actor, Claimed(m.kube.eips, keys, actor)))
  {
    hide NextCleanup, Claimed;
    run' := Go(c, s, run, m, actor.Owner(), CleanupList(actor), Order(keys), m,
               NextCleanup(actor, Claimed(m.kube.eips, keys, actor)));
  }

  lemma CleanupDescribes(c: Config, s: State, run: seq<Step>, m: State, actor: Actor, todo: seq<Eip>)
    returns (run': seq<Step>)
    requires todo != [] && todo[0].AllocationId().Some? && todo[0].AllocationId().value in m.aws.addrs
    requires Reaches(c, s, run, m, actor.Owner(), CleanupDescribe(actor, todo))
    ensures var address := m.aws.addrs[todo[0].AllocationId().value];
            Reaches(c, s, run', m, actor.Owner(),
                    if address.association.Some? then CleanupDisassociate(actor, todo, address.association.value.id)
                    else CleanupDetach(actor, todo))
  {
    var address := m.aws.addrs[todo[0].AllocationId().value];
    run' := Go(c, s, run, m, actor.Owner(), CleanupDescribe(actor, todo), Plain, m,
               if address.association.Some? then CleanupDisassociate(actor, todo, address.association.value.id)
               else CleanupDetach(actor, todo));
  }

  lemma CleanupDisassociates(c: Config, s: State, run: seq<Step>, m: State, actor: Actor, todo: seq<Eip>, id: nat)
    returns (run': seq<Step>)
    requires Reaches(c, s, run, m, actor.Owner(), CleanupDisassociate(actor, todo, id))
    ensures Reaches(c, s, run', m.(aws := Aws.Disassociate(m.aws, id)), actor.Owner(), CleanupDetach(actor, todo))
  {
    run' := Go(c, s, run, m, actor.Owner(), CleanupDisassociate(actor, todo, id), Plain,
               m.(aws := Aws.Disassociate(m.aws, id)), CleanupDetach(actor, todo));
  }

  lemma CleanupDetaches(c: Config, s: State, run: seq<Step>, m: State, actor: Actor, todo: seq<Eip>, k: Kube.Store)
    returns (run': seq<Step>)
    requires todo != [] && Kube.SetStatusDetached(m.kube, todo[0]) == Ok(k)
    requires Reaches(c, s, run, m, actor.Owner(), CleanupDetach(actor, todo))
    ensures Reaches(c, s, run', m.(kube := k), actor.Owner(), NextCleanup(actor, todo[1..]))
  {
    hide NextCleanup;
    run' := Go(c, s, run, m, actor.Owner(), CleanupDetach(actor, todo), Plain, m.(kube := k),
               NextCleanup(actor, todo[1..]));
  }

  /** The label or the deletion at the end. */
  lemma CleanupTails(c: Config, s: State, run: seq<Step>, m: State, actor: Actor) returns (run': seq<Step>)
    requires actor.NodeActor? ==> actor.node.name in m.kube.nodes
    requires Reaches(c, s, run, m, actor.Owner(), CleanupTail(actor))
    ensures Reaches(c, s, run', m.(kube := Tail(m.kube, actor)), actor.Owner(), Finalize(actor))
  {
    hide Tail;
    run' := Go(c, s, run, m, actor.Owner(), CleanupTail(actor), Plain, m.(kube := Tail(m.kube, actor)),
               Finalize(actor));
  }

  lemma Finalizes(c: Config, s: State, run: seq<Step>, m: State, actor: Actor) returns (run': seq<Step>)
    requires Reaches(c, s, run, m, actor.Owner(), Finalize(actor))
    ensures RunsTo(c, s, run', m.(kube := Gone(m.kube, actor)))
  {
    hide Gone;
    run' := Finish(c, s, run, m, actor.Owner(), Finalize(actor), Plain, m.(kube := Gone(m.kube, actor)));
  }
}
