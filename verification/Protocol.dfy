/**
 The operator as a transition system: every API call of every reconcile is one step, and steps of
 different reconciles, of users and of the cluster interleave freely.

 A reconcile is a task. It holds the copies it has read and the call it makes next. Any task may stop
 before any of its calls, because the call failed or because something it needs is missing. A crash
 drops all tasks and starts the sweep for orphaned addresses again.
 */
module Protocol {
  import opened Base
  import Kube
  import Aws

  /** `namespace` is the namespace the operator is confined to, if any. Pods and nodes do not share names. */
  datatype Config = Config(namespace: Option<string>, nodeNames: iset<string>)
  {
    function NodeNs(): string {
      if namespace.Some? then namespace.value else "default"
    }

    predicate InScope(ns: string) {
      namespace == None || namespace == Some(ns)
    }
  }

  /** The resource a pod or node reconcile works for. */
  datatype Actor = PodActor(pod: Pod) | NodeActor(node: Node)
  {
    function Name(): string {
      if PodActor? then pod.key.name else node.name
    }

    function Ns(c: Config): string {
      if PodActor? then pod.key.ns else c.NodeNs()
    }

    function Ip(): Option<string> {
      if PodActor? then pod.ip else node.ip
    }

    function Owner(): Owner {
      if PodActor? then PodOwner(pod.key) else NodeOwner
    }
  }

  /** At most one task runs for each owner: one per Eip, one per pod, and one for all nodes together. */
  datatype Owner = EipOwner(key: Key) | PodOwner(podKey: Key) | NodeOwner

  /** The constructor says which call comes next. */
  datatype Task =
    // Eip apply
    | EipDescribe(eip: Eip)
    | EipAllocate(eip: Eip)
    | EipRecord(eip: Eip, alloc: nat, publicIp: string)
    | EipList(eip: Eip)
    | EipDisassociate(eip: Eip, listed: set<string>)
    | EipDetach(eip: Eip, listed: set<string>)
    | EipRefresh(eip: Eip, listed: set<string>)
    // Eip cleanup
    | EipSweep(eip: Eip)
    | EipRelease(eip: Eip, found: seq<(nat, Option<nat>)>)
    | EipFinalize(eip: Eip)
    // Pod and node apply
    | PodCreateEip(pod: Pod)
    | PodLocate(pod: Pod)
    | PodList(pod: Pod, podEni: string)
    | NodeList(node: Node)
    | NotReady(node: Node, eip: Eip)
    | Describe(actor: Actor, eip: Eip, knownEni: Option<string>)
    | NodeLocate(node: Node, eip: Eip, address: Address)
    | Claim(actor: Actor, eip: Eip, address: Address, eni: string)
    | Associate(actor: Actor, eip: Eip, address: Address, eni: string)
    | RecordAssociation(actor: Actor, eip: Eip, address: Address, association: nat)
    | PodAnnotate(pod: Pod, alloc: nat, publicIp: string)
    // Pod and node cleanup
    | CleanupList(actor: Actor)
    | CleanupDescribe(actor: Actor, todo: seq<Eip>)
    | CleanupDisassociate(actor: Actor, todo: seq<Eip>, association: nat)
    | CleanupDetach(actor: Actor, todo: seq<Eip>)
    | CleanupTail(actor: Actor)
    | Finalize(actor: Actor)

  /** What startup has left to do before the controllers run. */
  datatype Phase =
    | Starting
    | Swept(found: map<nat, Address>)
    | Releasing(orphans: seq<(nat, Option<nat>)>)
    | Running

  /** `seenEips` and `seenPods` are how far each object's watch has come; `condemned` holds the uids of
      the Eips whose cleanup has begun. */
  datatype State = State(
    kube: Kube.Store, aws: Aws.Cloud, seenEips: map<Key, nat>, seenPods: map<Key, nat>,
    condemned: set<nat>, tasks: map<Owner, Task>, phase: Phase)

  /** What a call returns beyond what the stores determine. */
  datatype Choice =
    | Plain
    | Order(keys: seq<Key>)
    | Addresses(found: seq<nat>)
    | NewAddress(publicIp: string)
    | Interface(eni: Option<string>)

  datatype Step =
    // users and the cluster
    | UserCreatesEip(key: Key, selector: Selector)
    | UserDeletesEip(key: Key)
    | PodAppears(key: Key, autocreate: bool)
    | PodChanges(key: Key, ip: Option<string>, nodeName: Option<string>, eni: Option<string>)
    | PodDeleted(key: Key)
    | NodesChange(nodes: map<string, Node>)
    // the controllers' scheduling
    | EipFinalizer(key: Key)
    | PodFinalizer(key: Key)
    | StartEip(eip: Eip)
    | StartPod(pod: Pod)
    | StartNode(node: Node, gone: bool)
    | Run(owner: Owner, choice: Choice)
    | Stop(owner: Owner)
    // the process
    | Crash
    | SweepStep

  function Init(): State {
    State(Kube.EMPTY, Aws.EMPTY, map[], map[], {}, map[], Starting)
  }

  function Seen(seen: map<Key, nat>, key: Key): nat {
    if key in seen then seen[key] else 0
  }

  function End(s: State, o: Owner): State {
    s.(tasks := s.tasks - {o})
  }

  function Goto(s: State, o: Owner, t: Task): State {
    s.(tasks := s.tasks[o := t])
  }

  /** A call of a task changes the stores to `k` and `a`, and nothing else but the tasks. */
  predicate Effect(s: State, s': State, k: Kube.Store, a: Aws.Cloud) {
    && s'.kube == k && s'.aws == a
    && s'.seenEips == s.seenEips && s'.seenPods == s.seenPods && s'.condemned == s.condemned && s'.phase == s.phase
  }

  /** What a write leaves: the new store, or the old one when it is refused. */
  function OrElse(r: Result<Kube.Store>, k: Kube.Store): Kube.Store {
    if r.Ok? then r.value else k
  }

  /** A call that only reads: the task goes on with `t`, or ends. */
  function Read(s: State, o: Owner, t: Option<Task>): State {
    if t.Some? then Goto(s, o, t.value) else End(s, o)
  }

  /** Store the result of a write and go on with `t`; a refused write ends the task. */
  function Written(s: State, o: Owner, r: Result<Kube.Store>, t: Task): State {
    match r
    case Ok(k) => Goto(s, o, t).(kube := k)
    case Err(_) => End(s, o)
  }

  function WrittenLast(s: State, o: Owner, r: Result<Kube.Store>): State {
    match r
    case Ok(k) => End(s, o).(kube := k)
    case Err(_) => End(s, o)
  }

  /** The part of a provider id after its last slash. */
  function InstanceId(providerId: string): (r: Option<string>)
    ensures r.None? <==> '/' !in providerId
    ensures r.Some? ==>
              '/' !in r.value
              && exists i :: 0 <= i < |providerId| && providerId[i] == '/' && r.value == providerId[i + 1..]
  {
    if providerId == "" then None
    else
      var rest := InstanceId(providerId[1..]);
      assert providerId == [providerId[0]] + providerId[1..];
      if rest.Some? then
        assert exists i :: 0 <= i < |providerId| && providerId[i] == '/' && rest.value == providerId[i + 1..] by {
          var i :| 0 <= i < |providerId[1..]| && providerId[1..][i] == '/' && rest.value == providerId[1..][i + 1..];
          assert providerId[i + 1] == '/' && rest.value == providerId[i + 2..];
        }
        rest
      else if providerId[0] == '/' then Some(providerId[1..]) else None
  }

  // ---- Eip apply and cleanup ----

  /** Look the address up by its uid tag: none, one, or too many. */
  function AfterEipDescribe(s: State, o: Owner, e: Eip, choice: Choice): (r: Option<State>)
    ensures r.Some? ==> Effect(s, r.value, s.kube, s.aws)
  {
    if !choice.Addresses? || !Aws.Tagged(s.aws, e.uid, choice.found) then None
    else if |choice.found| == 0 then Some(Goto(s, o, EipAllocate(e)))
    else if |choice.found| == 1 then
      Some(Goto(s, o, EipRecord(e, choice.found[0], s.aws.addrs[choice.found[0]].publicIp)))
    else Some(End(s, o))
  }

  function AfterEipAllocate(s: State, o: Owner, e: Eip, choice: Choice): (r: Option<State>)
    ensures r.Some? ==>
              choice.NewAddress? && Effect(s, r.value, s.kube, Aws.Allocate(s.aws, e.uid, e.key.ns, choice.publicIp))
  {
    if !choice.NewAddress? then None
    else Some(Goto(s, o, EipRecord(e, s.aws.next, choice.publicIp)).(
                aws := Aws.Allocate(s.aws, e.uid, e.key.ns, choice.publicIp)))
  }

  function AfterEipRecord(s: State, o: Owner, e: Eip, alloc: nat, publicIp: string): (r: Option<State>)
    ensures r.Some? ==> Effect(s, r.value, OrElse(Kube.SetStatusCreated(s.kube, e.key, alloc, publicIp), s.kube), s.aws)
  {
    Some(Written(s, o, Kube.SetStatusCreated(s.kube, e.key, alloc, publicIp), EipList(e)))
  }

  /** Compare the claim with the resources that match now. The claim is the one in the copy the apply began with. */
  function AfterEipList(s: State, o: Owner, e: Eip): (r: Option<State>)
    ensures r.Some? ==> Effect(s, r.value, s.kube, s.aws)
  {
    var listed := Kube.Resources(s.kube, e);
    if e.ResourceId().None? then Some(Goto(s, o, EipRefresh(e, listed)))
    else if e.ResourceId().value in listed then Some(End(s, o))
    else if e.AssociationId().Some? then Some(Goto(s, o, EipDisassociate(e, listed)))
    else Some(Goto(s, o, EipDetach(e, listed)))
  }

  function AfterEipDisassociate(s: State, o: Owner, e: Eip, listed: set<string>): (r: Option<State>)
    ensures r.Some? ==>
              e.AssociationId().Some? && Effect(s, r.value, s.kube, Aws.Disassociate(s.aws, e.AssociationId().value))
  {
    if e.AssociationId().None? then None
    else Some(Goto(s, o, EipDetach(e, listed)).(aws := Aws.Disassociate(s.aws, e.AssociationId().value)))
  }

  function AfterEipDetach(s: State, o: Owner, e: Eip, listed: set<string>): (r: Option<State>)
    ensures r.Some? ==> Effect(s, r.value, OrElse(Kube.SetStatusDetached(s.kube, e), s.kube), s.aws)
  {
    Some(Written(s, o, Kube.SetStatusDetached(s.kube, e), EipRefresh(e, listed)))
  }

  function AfterEipSweep(s: State, o: Owner, e: Eip, choice: Choice): (r: Option<State>)
    ensures r.Some? ==> Effect(s, r.value, s.kube, s.aws)
  {
    if !choice.Addresses? || !Aws.Tagged(s.aws, e.uid, choice.found) then None
    else Some(Goto(s, o, EipRelease(e, Described(s.aws, choice.found))))
  }

  /** What that does to the addresses. */
  function Dropped(a: Aws.Cloud, found: seq<(nat, Option<nat>)>): Aws.Cloud {
    if found == [] then a
    else if found[0].1.Some? then Aws.Disassociate(a, found[0].1.value)
    else if Aws.Release(a, found[0].0).Ok? then Aws.Release(a, found[0].0).value
    else a
  }

  /** Deal with the first address of the list: disassociate it if the listing showed an association, then release it. */
  function AfterEipRelease(s: State, o: Owner, e: Eip, found: seq<(nat, Option<nat>)>): (r: Option<State>)
    ensures r.Some? ==> Effect(s, r.value, s.kube, Dropped(s.aws, found))
  {
    var s1 := s.(aws := Dropped(s.aws, found));
    if found == [] then Some(Goto(s1, o, EipFinalize(e)))
    else if found[0].1.Some? then Some(Goto(s1, o, EipRelease(e, [(found[0].0, None)] + found[1..])))
    else if Aws.Release(s.aws, found[0].0).Ok? then Some(Goto(s1, o, EipRelease(e, found[1..])))
    else Some(End(s1, o))
  }

  function Finalized(k: Kube.Store, e: Eip): Kube.Store {
    if e.key in k.eips && k.eips[e.key].uid == e.uid then Kube.RemoveEip(k, e.key) else k
  }

  /** Cleanup succeeded: the finalizer goes, and with it the object. */
  function AfterEipFinalize(s: State, o: Owner, e: Eip): (r: Option<State>)
    ensures r.Some? ==> Effect(s, r.value, Finalized(s.kube, e), s.aws)
  {
    Some(End(s, o).(kube := Finalized(s.kube, e)))
  }

  /** What a listing says of each address: its allocation id and its association, if any. */
  function Described(a: Aws.Cloud, found: seq<nat>): (r: seq<(nat, Option<nat>)>)
    requires forall i :: 0 <= i < |found| ==> found[i] in a.addrs
    ensures |r| == |found|
    ensures forall i :: 0 <= i < |r| ==> r[i] == (found[i], Aws.AssociationOf(a.addrs[found[i]]))
  {
    seq(|found|, i requires 0 <= i < |found| => (found[i], Aws.AssociationOf(a.addrs[found[i]])))
  }

  // ---- Pod and node apply ----

  function AfterPodCreateEip(s: State, o: Owner, p: Pod): (r: Option<State>)
    ensures r.Some? ==> Effect(s, r.value, OrElse(Kube.CreateForPod(s.kube, p.key), s.kube), s.aws)
  {
    Some(Written(s, o, Kube.CreateForPod(s.kube, p.key), PodLocate(p)))
  }

  /** Find the interface: from the pod's annotation, or by its IP among the instance's interfaces. */
  function AfterPodLocate(s: State, o: Owner, p: Pod, choice: Choice): (r: Option<State>)
    ensures r.Some? ==> Effect(s, r.value, s.kube, s.aws)
  {
    if !choice.Interface? then None
    else if p.nodeName.None? || p.ip.None? then Some(End(s, o))
    else if p.eni.Some? then Some(Goto(s, o, PodList(p, p.eni.value)))
    else if choice.eni.Some? then Some(Goto(s, o, PodList(p, choice.eni.value)))
    else Some(End(s, o))
  }

  function MatchingPod(eips: map<Key, Eip>, keys: seq<Key>, name: string): seq<Eip>
    requires forall i :: 0 <= i < |keys| ==> keys[i] in eips
  {
    Kube.Select(eips, keys, (e: Eip) => e.MatchesPod(name))
  }

  function AfterPodList(s: State, o: Owner, p: Pod, eni: string, choice: Choice): (r: Option<State>)
    ensures r.Some? ==> Effect(s, r.value, s.kube, s.aws)
  {
    if !choice.Order? || !Kube.Lists(s.kube, p.key.ns, choice.keys) then None
    else Some(Read(s, o, PodDecision(p, eni, MatchingPod(s.kube.eips, choice.keys, p.key.name))))
  }

  /** A pod needs exactly one matching Eip, with an allocation. */
  function PodDecision(p: Pod, eni: string, matched: seq<Eip>): Option<Task> {
    if |matched| == 1 && matched[0].AllocationId().Some? && p.ip.Some? then
      Some(Describe(PodActor(p), matched[0], Some(eni)))
    else None
  }

  function MatchingNode(eips: map<Key, Eip>, keys: seq<Key>, labels: map<string, string>): seq<Eip>
    requires forall i :: 0 <= i < |keys| ==> keys[i] in eips
  {
    Kube.Select(eips, keys, (e: Eip) => e.MatchesNode(labels))
  }

  /** A node takes the first matching Eip that names no resource or itself; one that is not ready lets it go. */
  function AfterNodeList(c: Config, s: State, o: Owner, n: Node, choice: Choice): (r: Option<State>)
    ensures r.Some? ==> Effect(s, r.value, s.kube, s.aws)
  {
    if !choice.Order? || !Kube.Lists(s.kube, c.NodeNs(), choice.keys) then None
    else if n.ip.None? || n.providerId.None? || InstanceId(n.providerId.value).None? then Some(End(s, o))
    else Some(Read(s, o, NodeDecision(n, Kube.FirstFree(MatchingNode(s.kube.eips, choice.keys, n.labels), n.name))))
  }

  function NodeDecision(n: Node, chosen: Option<Eip>): Option<Task> {
    if chosen.None? || n.ready.None? then None
    else if n.ready.value != "True" then Some(NotReady(n, chosen.value))
    else if chosen.value.AllocationId().None? then None
    else Some(Describe(NodeActor(n), chosen.value, None))
  }

  function AfterNotReady(s: State, o: Owner, e: Eip): (r: Option<State>)
    ensures r.Some? ==> Effect(s, r.value, OrElse(Kube.SetStatusDetached(s.kube, e), s.kube), s.aws)
  {
    Some(WrittenLast(s, o, Kube.SetStatusDetached(s.kube, e)))
  }

  function AfterDescribe(s: State, o: Owner, actor: Actor, e: Eip, eni: Option<string>): (r: Option<State>)
    ensures r.Some? ==> Effect(s, r.value, s.kube, s.aws)
  {
    if e.AllocationId().None? || e.AllocationId().value !in s.aws.addrs then Some(End(s, o))
    else
      var address := s.aws.addrs[e.AllocationId().value];
      if actor.NodeActor? then Some(Goto(s, o, NodeLocate(actor.node, e, address)))
      else if eni.Some? then Some(Goto(s, o, Claim(actor, e, address, eni.value)))
      else None
  }

  /** A node whose address is already at its interface and IP has nothing to do. */
  function AfterNodeLocate(s: State, o: Owner, n: Node, e: Eip, address: Address, choice: Choice): (r: Option<State>)
    ensures r.Some? ==> Effect(s, r.value, s.kube, s.aws)
  {
    if !choice.Interface? then None
    else if n.ip.None? || choice.eni.None? || address.At(choice.eni.value, n.ip.value) then Some(End(s, o))
    else Some(Goto(s, o, Claim(NodeActor(n), e, address, choice.eni.value)))
  }

  /** Claim by compare-and-swap. A pod whose address is already in place goes straight to the annotation. */
  function AfterClaim(s: State, o: Owner, actor: Actor, e: Eip, address: Address, eni: string): (r: Option<State>)
    ensures r.Some? ==>
              actor.Ip().Some? && Effect(s, r.value,
                                         OrElse(Kube.SetStatusShouldAttach(s.kube, e, eni, actor.Ip().value,
                                             actor.Name()), s.kube), s.aws)
  {
    if actor.Ip().None? || e.AllocationId().None? then None
    else
      var r := Kube.SetStatusShouldAttach(s.kube, e, eni, actor.Ip().value, actor.Name());
      if actor.PodActor? && address.At(eni, actor.Ip().value) then
        Some(Written(s, o, r, PodAnnotate(actor.pod, e.AllocationId().value, address.publicIp)))
      else Some(Written(s, o, r, Associate(actor, e, address, eni)))
  }

  function Attached(a: Aws.Cloud, e: Eip, eni: string, ip: string): Aws.Cloud {
    if e.AllocationId().Some? && e.AllocationId().value in a.addrs
    then Aws.Associate(a, e.AllocationId().value, eni, ip) else a
  }

  function AfterAssociate(s: State, o: Owner, actor: Actor, e: Eip, address: Address, eni: string): (r: Option<State>)
    ensures r.Some? ==> actor.Ip().Some? && Effect(s, r.value, s.kube, Attached(s.aws, e, eni, actor.Ip().value))
  {
    if actor.Ip().None? || e.AllocationId().None? then None
    else if e.AllocationId().value !in s.aws.addrs then Some(End(s, o))
    else Some(Goto(s, o, RecordAssociation(actor, e, address, s.aws.next)).(
                aws := Attached(s.aws, e, eni, actor.Ip().value)))
  }

  function AfterRecordAssociation(s: State, o: Owner, actor: Actor, e: Eip, address: Address,
                                  association: nat): (r: Option<State>)
    ensures r.Some? ==>
              Effect(s, r.value, OrElse(Kube.SetStatusAssociationId(s.kube, e.key, association), s.kube), s.aws)
  {
    if e.AllocationId().None? then None
    else
      var r := Kube.SetStatusAssociationId(s.kube, e.key, association);
      if actor.NodeActor? then Some(WrittenLast(s, o, r))
      else Some(Written(s, o, r, PodAnnotate(actor.pod, e.AllocationId().value, address.publicIp)))
  }

  function AfterPodAnnotate(s: State, o: Owner, p: Pod, alloc: nat, publicIp: string): (r: Option<State>)
    ensures r.Some? ==>
              Effect(s, r.value, OrElse(Kube.Annotate(s.kube, p.key, Annotation(alloc, publicIp)), s.kube), s.aws)
  {
    Some(WrittenLast(s, o, Kube.Annotate(s.kube, p.key, Annotation(alloc, publicIp))))
  }

  // ---- Pod and node cleanup ----

  function NextCleanup(actor: Actor, todo: seq<Eip>): Task {
    if todo == [] then CleanupTail(actor) else CleanupDescribe(actor, todo)
  }

  /** A pod's cleanup does not look at the selector. */
  function ClaimedBy(actor: Actor): Eip -> bool {
    match actor
    case PodActor(p) => (e: Eip) => e.ResourceId() == Some(p.key.name)
    case NodeActor(n) => (e: Eip) => e.MatchesNode(n.labels) && e.ResourceId() == Some(n.name)
  }

  /** The Eips a cleanup deals with. */
  function Claimed(eips: map<Key, Eip>, keys: seq<Key>, actor: Actor): seq<Eip>
    requires forall i :: 0 <= i < |keys| ==> keys[i] in eips
  {
    Kube.Select(eips, keys, ClaimedBy(actor))
  }

  function AfterCleanupList(c: Config, s: State, o: Owner, actor: Actor, choice: Choice): (r: Option<State>)
    ensures r.Some? ==> Effect(s, r.value, s.kube, s.aws)
  {
    if !choice.Order? || !Kube.Lists(s.kube, actor.Ns(c), choice.keys) then None
    else Some(Goto(s, o, NextCleanup(actor, Claimed(s.kube.eips, choice.keys, actor))))
  }

  function AfterCleanupDescribe(s: State, o: Owner, actor: Actor, todo: seq<Eip>): (r: Option<State>)
    ensures r.Some? ==> Effect(s, r.value, s.kube, s.aws)
  {
    if todo == [] then None
    else
      var alloc := todo[0].AllocationId();
      if alloc.None? || alloc.value !in s.aws.addrs then Some(End(s, o))
      else if s.aws.addrs[alloc.value].association.Some? then
        Some(Goto(s, o, CleanupDisassociate(actor, todo, s.aws.addrs[alloc.value].association.value.id)))
      else Some(Goto(s, o, CleanupDetach(actor, todo)))
  }

  function AfterCleanupDisassociate(s: State, o: Owner, actor: Actor, todo: seq<Eip>,
                                    association: nat): (r: Option<State>)
    ensures r.Some? ==> Effect(s, r.value, s.kube, Aws.Disassociate(s.aws, association))
  {
    Some(Goto(s, o, CleanupDetach(actor, todo)).(aws := Aws.Disassociate(s.aws, association)))
  }

  function AfterCleanupDetach(s: State, o: Owner, actor: Actor, todo: seq<Eip>): (r: Option<State>)
    ensures r.Some? ==> todo != [] && Effect(s, r.value, OrElse(Kube.SetStatusDetached(s.kube, todo[0]), s.kube), s.aws)
  {
    if todo == [] then None
    else Some(Written(s, o, Kube.SetStatusDetached(s.kube, todo[0]), NextCleanup(actor, todo[1..])))
  }

  function Tail(k: Kube.Store, actor: Actor): Kube.Store {
    match actor
    case PodActor(p) => if p.autocreate then Kube.DeleteEip(k, p.key) else k
    case NodeActor(n) => OrElse(Kube.LabelNode(k, n.name, "false"), k)
  }

  /** A pod's autocreated Eip is deleted; a node is labelled as not serving egress traffic. */
  function AfterCleanupTail(s: State, o: Owner, actor: Actor): (r: Option<State>)
    ensures r.Some? ==> Effect(s, r.value, Tail(s.kube, actor), s.aws)
  {
    if actor.NodeActor? && actor.node.name !in s.kube.nodes then Some(End(s, o))
    else Some(Goto(s, o, Finalize(actor)).(kube := Tail(s.kube, actor)))
  }

  function Gone(k: Kube.Store, actor: Actor): Kube.Store {
    if actor.PodActor? && actor.pod.key in k.pods && k.pods[actor.pod.key].uid == actor.pod.uid
    then Kube.RemovePod(k, actor.pod.key) else k
  }

  /** Cleanup succeeded: the finalizer goes; a pod goes with it. */
  function AfterFinalize(s: State, o: Owner, actor: Actor): (r: Option<State>)
    ensures r.Some? ==> Effect(s, r.value, Gone(s.kube, actor), s.aws)
  {
    Some(End(s, o).(kube := Gone(s.kube, actor)))
  }

  /** The next call of a task. */
  function RunTask(c: Config, s: State, o: Owner, t: Task, choice: Choice): Option<State> {
    match t
    case EipDescribe(e) => AfterEipDescribe(s, o, e, choice)
    case EipAllocate(e) => AfterEipAllocate(s, o, e, choice)
    case EipRecord(e, alloc, publicIp) => AfterEipRecord(s, o, e, alloc, publicIp)
    case EipList(e) => AfterEipList(s, o, e)
    case EipDisassociate(e, listed) => AfterEipDisassociate(s, o, e, listed)
    case EipDetach(e, listed) => AfterEipDetach(s, o, e, listed)
    // The refresh labels only make the listed resources reconcile again, which they may do at any time.
    case EipRefresh(_, _) => Some(End(s, o))
    case EipSweep(e) => AfterEipSweep(s, o, e, choice)
    case EipRelease(e, found) => AfterEipRelease(s, o, e, found)
    case EipFinalize(e) => AfterEipFinalize(s, o, e)
    case PodCreateEip(p) => AfterPodCreateEip(s, o, p)
    case PodLocate(p) => AfterPodLocate(s, o, p, choice)
    case PodList(p, eni) => AfterPodList(s, o, p, eni, choice)
    case NodeList(n) => AfterNodeList(c, s, o, n, choice)
    case NotReady(_, e) => AfterNotReady(s, o, e)
    case Describe(actor, e, eni) => AfterDescribe(s, o, actor, e, eni)
    case NodeLocate(n, e, address) => AfterNodeLocate(s, o, n, e, address, choice)
    case Claim(actor, e, address, eni) => AfterClaim(s, o, actor, e, address, eni)
    case Associate(actor, e, address, eni) => AfterAssociate(s, o, actor, e, address, eni)
    case RecordAssociation(actor, e, address, association) => AfterRecordAssociation(s, o, actor, e, address,
        association)
    case PodAnnotate(p, alloc, publicIp) => AfterPodAnnotate(s, o, p, alloc, publicIp)
    case CleanupList(actor) => AfterCleanupList(c, s, o, actor, choice)
    case CleanupDescribe(actor, todo) => AfterCleanupDescribe(s, o, actor, todo)
    case CleanupDisassociate(actor, todo, association) => AfterCleanupDisassociate(s, o, actor, todo, association)
    case CleanupDetach(actor, todo) => AfterCleanupDetach(s, o, actor, todo)
    case CleanupTail(actor) => AfterCleanupTail(s, o, actor)
    case Finalize(actor) => AfterFinalize(s, o, actor)
  }

  predicate EipTask(t: Task) {
    || t.EipDescribe? || t.EipAllocate? || t.EipRecord? || t.EipList? || t.EipDisassociate? || t.EipDetach?
    || t.EipRefresh? || t.EipSweep? || t.EipRelease? || t.EipFinalize?
  }

  predicate CleanupTask(t: Task) {
    || t.CleanupList? || t.CleanupDescribe? || t.CleanupDisassociate? || t.CleanupDetach? || t.CleanupTail?
       || t.Finalize?
  }

  // ---- Scheduling, users and the process ----

  ghost function Start(c: Config, s: State, step: Step): Option<State>
  {
    match step {
      case EipFinalizer(key) =>
        if s.phase != Running || EipOwner(key) in s.tasks || key !in s.kube.eips
           || s.kube.eips[key].finalizer || s.kube.eips[key].deleting then None
        else Some(s.(kube := Kube.PutEip(s.kube, s.kube.eips[key].(finalizer := true))))
      case PodFinalizer(key) =>
        if s.phase != Running || PodOwner(key) in s.tasks || key !in s.kube.pods
           || s.kube.pods[key].finalizer || s.kube.pods[key].deleting then None
        else Some(s.(kube := Kube.PutPod(s.kube, s.kube.pods[key].(finalizer := true))))
      case StartEip(e) =>
        if s.phase != Running || EipOwner(e.key) in s.tasks || e !in s.kube.eipLog || !e.finalizer
           || e.version < Seen(s.seenEips, e.key) || !c.InScope(e.key.ns) then None
        else if e.deleting then
          Some(Goto(s, EipOwner(e.key), EipSweep(e)).(
                 seenEips := s.seenEips[e.key := e.version], condemned := s.condemned + {e.uid}))
        else Some(Goto(s, EipOwner(e.key), EipDescribe(e)).(seenEips := s.seenEips[e.key := e.version]))
      case StartPod(p) =>
        if s.phase != Running || PodOwner(p.key) in s.tasks || p !in s.kube.podLog || !p.finalizer
           || p.version < Seen(s.seenPods, p.key) || !c.InScope(p.key.ns) then None
        else
          var s' := s.(seenPods := s.seenPods[p.key := p.version]);
          var t := if p.deleting then CleanupList(PodActor(p))
                   else if p.autocreate then PodCreateEip(p) else PodLocate(p);
          Some(Goto(s', PodOwner(p.key), t))
      case StartNode(n, gone) =>
        if s.phase != Running || NodeOwner in s.tasks || n.name !in c.nodeNames then None
        else Some(Goto(s, NodeOwner, if gone then CleanupList(NodeActor(n)) else NodeList(n)))
      case _ => None
    }
  }

  ghost function Environment(c: Config, s: State, step: Step): Option<State>
  {
    match step {
      case UserCreatesEip(key, selector) =>
        if key in s.kube.eips then None else Some(s.(kube := Kube.CreateEip(s.kube, key, selector)))
      case UserDeletesEip(key) =>
        Some(s.(kube := Kube.DeleteEip(s.kube, key)))
      case PodAppears(key, autocreate) =>
        if key in s.kube.pods || key.name in c.nodeNames then None
        else Some(s.(kube := Kube.PutPod(s.kube,
                                         Pod(key, s.kube.next, 0, false, false, autocreate, None, None, None, None))))
      case PodChanges(key, ip, nodeName, eni) =>
        if key !in s.kube.pods then None
        else Some(s.(kube := Kube.PutPod(s.kube, s.kube.pods[key].(ip := ip, nodeName := nodeName, eni := eni))))
      case PodDeleted(key) =>
        if key !in s.kube.pods then None else Some(s.(kube := Kube.DeletePod(s.kube, key)))
      case NodesChange(nodes) =>
        if forall n :: n in nodes ==> n in c.nodeNames then Some(s.(kube := s.kube.(nodes := nodes))) else None
      case _ => None
    }
  }

  /** The addresses startup looks at: those tagged with the namespace the operator is confined to, or all. */
  ghost function InScope(c: Config, a: Aws.Cloud): map<nat, Address> {
    map x | x in a.addrs && c.InScope(a.addrs[x].ns) :: a.addrs[x]
  }

  ghost predicate Orphaned(c: Config, k: Kube.Store, a: Address) {
    !exists key :: key in k.eips && c.InScope(key.ns) && k.eips[key].uid == a.uid
  }

  /** `orphans` lists exactly the found addresses that belong to no listed Eip. */
  ghost predicate AreOrphans(c: Config, k: Kube.Store, found: map<nat, Address>, orphans: seq<(nat, Option<nat>)>) {
    && (forall i :: 0 <= i < |orphans| ==>
          orphans[i].0 in found && Orphaned(c, k, found[orphans[i].0])
              && orphans[i].1 == Aws.AssociationOf(found[orphans[i].0]))
    && (forall x :: x in found && Orphaned(c, k, found[x]) ==> (x, Aws.AssociationOf(found[x])) in orphans)
  }

  ghost function OrphansOf(c: Config, k: Kube.Store, found: map<nat, Address>): (orphans: seq<(nat, Option<nat>)>)
    ensures AreOrphans(c, k, found, orphans)
  {
    var bad := set x | x in found && Orphaned(c, k, found[x]) :: (x, Aws.AssociationOf(found[x]));
    assert forall x :: x in found && Orphaned(c, k, found[x]) ==> (x, Aws.AssociationOf(found[x])) in bad;
    var orphans := Listed(bad);
    assert forall i :: 0 <= i < |orphans| ==> orphans[i] in bad;
    orphans
  }

  ghost function Listed<T(!new)>(xs: set<T>): (r: seq<T>)
    ensures forall x :: x in r <==> x in xs
  {
    if xs == {} then [] else var x :| x in xs; [x] + Listed(xs - {x})
  }

  ghost function Process(c: Config, s: State, step: Step): Option<State>
  {
    match step {
      case Crash => Some(s.(tasks := map[], phase := Starting))
      case SweepStep => (
        match s.phase
        case Starting => Some(s.(phase := Swept(InScope(c, s.aws))))
        case Swept(found) => Some(s.(phase := Releasing(OrphansOf(c, s.kube, found))))
        case Releasing(orphans) =>
          if orphans == [] then Some(s.(phase := Running))
          else if orphans[0].1.Some? then
            Some(s.(aws := Aws.Disassociate(s.aws, orphans[0].1.value),
                    phase := Releasing([(orphans[0].0, None)] + orphans[1..])))
          else (
            match Aws.Release(s.aws, orphans[0].0)
            case Ok(a) => Some(s.(aws := a, phase := Releasing(orphans[1..])))
            case Err(_) => Some(s.(phase := Starting))
          )
        case Running => None
      )
      case _ => None
    }
  }

  /** The state after one step, if the step can happen. */
  ghost function Next(c: Config, s: State, step: Step): Option<State>
  {
    match step {
      case Run(o, choice) => if o in s.tasks then RunTask(c, s, o, s.tasks[o], choice) else None
      case Stop(o) => if o in s.tasks then Some(End(s, o)) else None
      case Crash => Process(c, s, step)
      case SweepStep => Process(c, s, step)
      case EipFinalizer(_) => Start(c, s, step)
      case PodFinalizer(_) => Start(c, s, step)
      case StartEip(_) => Start(c, s, step)
      case StartPod(_) => Start(c, s, step)
      case StartNode(_, _) => Start(c, s, step)
      case _ => Environment(c, s, step)
    }
  }

  ghost predicate CanRun(c: Config, s: State, run: seq<Step>)
    decreases |run|
  {
    run == [] || (Next(c, s, run[0]).Some? && CanRun(c, Next(c, s, run[0]).value, run[1..]))
  }

  ghost function After(c: Config, s: State, run: seq<Step>): State
    requires CanRun(c, s, run)
    decreases |run|
  {
    if run == [] then s else After(c, Next(c, s, run[0]).value, run[1..])
  }

  /** Runs can be joined. */
  lemma {:induction false} RunOn(c: Config, s: State, first: seq<Step>, second: seq<Step>)
    requires CanRun(c, s, first) && CanRun(c, After(c, s, first), second)
    ensures CanRun(c, s, first + second) && After(c, s, first + second) == After(c, After(c, s, first), second)
    decreases |first|
  {
    hide Next;
    if first == [] {
      assert first + second == second;
    } else {
      RunOn(c, Next(c, s, first[0]).value, first[1..], second);
      assert (first + second)[1..] == first[1..] + second;
    }
  }

}
