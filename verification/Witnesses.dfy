/**
 What the operator can really run into: runs from the very beginning to states in which a node claims two
 Eips, keeps a claim when it is not ready, has an address it does not claim, or keeps a claim after its cleanup.
 */
module Witnesses {
  import opened Base
  import opened Protocol
  import opened Atomic
  import opened Detaching
  import opened Uninterrupted
  import opened ReconcileCalls
  import opened Settling
  import opened Convergence
  import opened ApplyTurns
  import opened Rest
  import opened Limits
  import Invariants
  import Runs
  import Safety
  import StrandingSteps
  import Watches
  import TurnRuns
  import Kube
  import Aws

  // ---- The scene: two Eips for gateway nodes ----

  const FIRST := Key("default", "a")
  const SECOND := Key("default", "b")
  const GATEWAY: map<string, string> := map["role" := "gateway"]
  const WORKER := Node("worker", GATEWAY, Some("10.0.0.1"), Some("aws/i-1"), Some("True"))
  const OTHER := Node("other", GATEWAY, Some("10.0.0.2"), Some("aws/i-2"), Some("True"))

  const CLUSTER := Config(None, iset{"worker", "other"})

  function Down(n: Node): Node {
    n.(ready := Some("False"))
  }

  /** Nothing runs at the moment. */
  ghost predicate Quiet(s: State) {
    Runs.Reachable(CLUSTER, s) && s.phase.Running? && s.tasks == map[] && s.kube.pods == map[]
  }

  /** An Eip for gateway nodes, with an address, claimed as given. */
  ghost predicate Has(s: State, key: Key, claim: Option<string>) {
    && key in s.kube.eips
    && var e := s.kube.eips[key];
       && e.key == key && e.selector == NodeSelector(GATEWAY) && e.finalizer && !e.deleting
       && e.AllocationId().Some? && e.AllocationId().value in s.aws.addrs && e.ResourceId() == claim
  }

  ghost predicate Scene(s: State, first: Option<string>, second: Option<string>) {
    && Quiet(s) && s.kube.eips.Keys == {FIRST, SECOND} && FIRST != SECOND
    && Has(s, FIRST, first) && Has(s, SECOND, second)
    && s.kube.eips[FIRST].AllocationId() != s.kube.eips[SECOND].AllocationId()
  }

  ghost predicate Loose(s: State, key: Key)
    requires key in s.kube.eips
  {
    var x := s.kube.eips[key].AllocationId();
    x.Some? && x.value in s.aws.addrs && s.aws.addrs[x.value].association.None?
  }

  // ---- Setting the scene ----

  /** Startup is over at once: there is nothing to sweep. */
  lemma Started() returns (s: State)
    ensures Quiet(s) && s.kube == Kube.EMPTY && s.aws == Aws.EMPTY && s.seenEips == map[]
  {
    s := Init();
    assert CanRun(CLUSTER, s, []) && After(CLUSTER, s, []) == s;
    Safety.ReachableStep(CLUSTER, s, SweepStep);
    s := Next(CLUSTER, s, SweepStep).value;
    Safety.ReachableStep(CLUSTER, s, SweepStep);
    s := Next(CLUSTER, s, SweepStep).value;
    assert s.phase.orphans == [];
    Safety.ReachableStep(CLUSTER, s, SweepStep);
    s := Next(CLUSTER, s, SweepStep).value;
  }

  /** Users create an Eip and the operator adds its finalizer. */
  lemma Created(s: State, key: Key) returns (s': State, e: Eip)
    requires Quiet(s) && key !in s.kube.eips && key.ns == "default" && key !in s.seenEips
    ensures Quiet(s') && s'.aws == s.aws && s'.seenEips == s.seenEips && s'.kube.nodes == s.kube.nodes
    ensures s'.kube.eips == s.kube.eips[key := e] && e in s'.kube.eipLog && e.key == key && e.finalizer && !e.deleting
    ensures e.status == None && e.selector == NodeSelector(GATEWAY) && e.uid == s.kube.next
  {
    hide RunTask, Process;
    Safety.ReachableStep(CLUSTER, s, UserCreatesEip(key, NodeSelector(GATEWAY)));
    var s1 := Next(CLUSTER, s, UserCreatesEip(key, NodeSelector(GATEWAY))).value;
    Safety.ReachableStep(CLUSTER, s1, EipFinalizer(key));
    s' := Next(CLUSTER, s1, EipFinalizer(key)).value;
    e := s'.kube.eips[key];
    assert s'.kube.eips == s.kube.eips[key := e];
  }

  /** No address carries a uid that has not been given out. */
  lemma NewUid(s: State, uid: nat)
    requires Runs.Reachable(CLUSTER, s) && s.kube.next <= uid
    ensures Aws.Tagged(s.aws, uid, [])
  {
    hide Invariants.TasksOk, Invariants.PhaseOk, Invariants.WatchOk, Invariants.PodsOk;
    Runs.ReachableInv(CLUSTER, s);
    forall x | x in s.aws.addrs ensures s.aws.addrs[x].uid < s.kube.next {
      assert Invariants.Owned(CLUSTER, s, x);
    }
  }

  /** Its first reconcile allocates an address and records it. */
  lemma Addressed(s: State, e: Eip) returns (s': State)
    requires Quiet(s) && e.key in s.kube.eips && s.kube.eips[e.key] == e && e in s.kube.eipLog && e.key !in s.seenEips
    requires e.finalizer && !e.deleting && e.status == None && e.selector == NodeSelector(GATEWAY)
    requires Aws.Tagged(s.aws, e.uid, []) && s.aws.next !in s.aws.addrs
    ensures Quiet(s') && s'.kube.nodes == s.kube.nodes && s'.seenEips == s.seenEips[e.key := e.version]
    ensures Has(s', e.key, None) && Loose(s', e.key) && s'.kube.eips[e.key].AllocationId() == Some(s.aws.next)
    ensures s'.kube.eips.Keys == s.kube.eips.Keys && forall key :: key in s.kube.eips && key != e.key ==>
              s'.kube.eips[key] == s.kube.eips[key]
    ensures s'.aws == Aws.Allocate(s.aws, e.uid, e.key.ns, "x") && s'.kube.eips[e.key].AssociationId() == None
  {
    hide RunsTo, Reaches, RunTask;
    var m := NotedEip(s, e);
    var run := EipStarts(CLUSTER, s, e);
    run := FindsNone(CLUSTER, s, run, m, e);
    run := Allocates(CLUSTER, s, run, m, e, "x");
    m := m.(aws := Aws.Allocate(m.aws, e.uid, e.key.ns, "x"));
    var k := Kube.SetStatusCreated(m.kube, e.key, s.aws.next, "x").value;
    run := Records(CLUSTER, s, run, m, e, s.aws.next, "x", k);
    m := m.(kube := k);
    run := ListsResources(CLUSTER, s, run, m, e);
    run := Refreshes(CLUSTER, s, run, m, e, Kube.Resources(m.kube, e));
    TurnRuns.RunsOn(CLUSTER, s, run, m);
    s' := m;
  }

  lemma NodesAre(s: State, nodes: map<string, Node>) returns (s': State)
    requires Quiet(s) && forall n :: n in nodes ==> n in CLUSTER.nodeNames
    ensures Quiet(s') && s' == s.(kube := s.kube.(nodes := nodes))
  {
    Safety.ReachableStep(CLUSTER, s, NodesChange(nodes));
    s' := Next(CLUSTER, s, NodesChange(nodes)).value;
  }

  lemma Changed(s: State, first: Option<string>, second: Option<string>, nodes: map<string, Node>) returns (s': State)
    requires Scene(s, first, second) && forall n :: n in nodes ==> n in CLUSTER.nodeNames
    ensures Scene(s', first, second) && s'.kube.nodes == nodes && s'.kube.eips == s.kube.eips && s'.aws == s.aws
  {
    hide Runs.Reachable;
    s' := NodesAre(s, nodes);
  }

  /** Two Eips with addresses, and two nodes that are ready. */
  lemma Opening() returns (s: State)
    ensures Scene(s, None, None) && Loose(s, FIRST) && Loose(s, SECOND) && s.kube.eips[FIRST].AssociationId() == None
    ensures s.kube.nodes == map["worker" := WORKER, "other" := OTHER]
  {
    hide Runs.Reachable;
    assert "a" != "b";
    s := Started();
    var e;
    NewUid(s, s.kube.next);
    s, e := Created(s, FIRST);
    s := Addressed(s, e);
    var first := s;
    NewUid(s, s.kube.next);
    s, e := Created(s, SECOND);
    s := Addressed(s, e);
    assert s.kube.eips[FIRST] == first.kube.eips[FIRST];
    s := NodesAre(s, map["worker" := WORKER, "other" := OTHER]);
  }

  // ---- Turns of nodes in the scene ----

  const LISTED := [FIRST, SECOND]

  lemma ListsBoth(s: State)
    requires s.kube.eips.Keys == {FIRST, SECOND} && FIRST != SECOND
    ensures Kube.Lists(s.kube, "default", LISTED)
  {
    assert LISTED[0] == FIRST && LISTED[1] == SECOND;
  }

  /** A gateway node's first choice: the first Eip if it is free for it, else the second. */
  lemma Picks(s: State, first: Option<string>, second: Option<string>, n: Node)
    requires Scene(s, first, second) && n.labels == GATEWAY
    ensures var chosen := Kube.FirstFree(MatchingNode(s.kube.eips, LISTED, n.labels), n.name);
            && Keyed(s.kube) && Kube.Lists(s.kube, "default", LISTED)
            && (Invariants.NoneOr(first, n.name) ==>
                  chosen == Some(s.kube.eips[FIRST]) && Chosen(s.kube.eips, LISTED, n) == Some(FIRST))
            && (!Invariants.NoneOr(first, n.name) && Invariants.NoneOr(second, n.name) ==>
                  chosen == Some(s.kube.eips[SECOND]))
  {
    hide Runs.Reachable;
    ListsBoth(s);
    ChosenIsFirstFree(s.kube.eips, LISTED, n, (e: Eip) => e.MatchesNode(n.labels));
    assert LISTED[1..] == [SECOND] && [SECOND][1..] == [];
  }

  /** A node of the scene that can act. */
  predicate Gateway(n: Node) {
    n.labels == GATEWAY && n.name in ["worker", "other"] && UsableNode(n)
  }

  /** A ready node takes the Eip `e`, its first choice, if the address is not at the node. */
  lemma TakesIt(s: State, first: Option<string>, second: Option<string>, n: Node, eni: string, e: Eip)
      returns (s': State)
    requires Scene(s, first, second) && Gateway(n) && n.ready == Some("True") && Keyed(s.kube)
    requires Kube.Lists(s.kube, "default", LISTED)
    requires Kube.FirstFree(MatchingNode(s.kube.eips, LISTED, n.labels), n.name) == Some(e)
    requires e.key in s.kube.eips && s.kube.eips[e.key] == e && e.AllocationId().Some?
    requires e.AllocationId().value in s.aws.addrs
    requires !Sits(s, e, (eni, n.ip.value))
    ensures Quiet(s') && s' == Place(s, e, n.name, eni, n.ip.value)
  {
    hide RunsTo, Place, Kube.FirstFree, MatchingNode, Runs.Reachable;
    var run := TurnRuns.NodeApplyRuns(CLUSTER, s, n, LISTED, Some(eni));
    s' := NodeApplied(s, n, LISTED, Some(eni));
    TurnRuns.RunsOn(CLUSTER, s, run, s');
    PlaceDoes(s, e, n.name, eni, n.ip.value);
    PlaceKeeps(s, e, n.name, eni, n.ip.value);
  }

  /** What taking `e` changes in the scene. */
  lemma PlaceInScene(s: State, e: Eip, other: Key, name: string, eni: string, ip: string)
    requires e.key in s.kube.eips && s.kube.eips[e.key] == e && Has(s, e.key, e.ResourceId()) && other in s.kube.eips
    requires other != e.key
    requires s.kube.eips[other].AllocationId().Some? && s.kube.eips[other].AllocationId() != e.AllocationId()
    ensures var s' := Place(s, e, name, eni, ip);
            && s'.kube.eips.Keys == s.kube.eips.Keys && s'.kube.nodes == s.kube.nodes
            && s'.kube.eips[other] == s.kube.eips[other]
            && Has(s', e.key, Some(name)) && s'.kube.eips[e.key].AllocationId() == e.AllocationId()
            && Sits(s', s'.kube.eips[e.key], (eni, ip))
            && s'.aws.addrs.Keys == s.aws.addrs.Keys && (Loose(s, other) ==> Loose(s', other))
            && forall place: (string, string) :: place != (eni, ip) && Sits(s, s.kube.eips[other], place) ==>
                Sits(s', s'.kube.eips[other], place)
  {
    hide Place;
    PlaceDoes(s, e, name, eni, ip);
    PlaceMoves(s, e, name, eni, ip);
    PlaceKeeps(s, e, name, eni, ip);
  }

  lemma TakesFirst(s: State, second: Option<string>, n: Node, eni: string) returns (s': State)
    requires Scene(s, None, second) && Gateway(n) && n.ready == Some("True")
    requires !Sits(s, s.kube.eips[FIRST], (eni, n.ip.value))
    ensures Scene(s', Some(n.name), second) && s'.kube.nodes == s.kube.nodes
    ensures Sits(s', s'.kube.eips[FIRST], (eni, n.ip.value))
    ensures Loose(s, SECOND) ==> Loose(s', SECOND)
  {
    hide Runs.Reachable, Place, Chosen, Kube.FirstFree, MatchingNode;
    Picks(s, None, second, n);
    s' := TakesIt(s, None, second, n, eni, s.kube.eips[FIRST]);
    PlaceInScene(s, s.kube.eips[FIRST], SECOND, n.name, eni, n.ip.value);
  }

  lemma TakesSecond(s: State, first: string, n: Node, eni: string, place: (string, string)) returns (s': State)
    requires Scene(s, Some(first), None) && Gateway(n) && n.ready == Some("True") && first != n.name
    requires !Sits(s, s.kube.eips[SECOND], (eni, n.ip.value)) && Sits(s, s.kube.eips[FIRST], place)
    requires place != (eni, n.ip.value)
    ensures Scene(s', Some(first), Some(n.name)) && s'.kube.nodes == s.kube.nodes
    ensures Sits(s', s'.kube.eips[SECOND], (eni, n.ip.value)) && Sits(s', s'.kube.eips[FIRST], place)
  {
    hide Runs.Reachable, Place, Chosen, Kube.FirstFree, MatchingNode;
    Picks(s, Some(first), None, n);
    s' := TakesIt(s, Some(first), None, n, eni, s.kube.eips[SECOND]);
    PlaceInScene(s, s.kube.eips[SECOND], FIRST, n.name, eni, n.ip.value);
  }

  lemma LooseIsElsewhere(s: State, key: Key, place: (string, string))
    requires key in s.kube.eips && Loose(s, key)
    ensures !Sits(s, s.kube.eips[key], place)
  {
  }

  lemma SitsOnce(s: State, key: Key, place: (string, string), place': (string, string))
    requires key in s.kube.eips && Sits(s, s.kube.eips[key], place) && place != place'
    ensures !Sits(s, s.kube.eips[key], place')
  {
  }

  lemma PlaceKeeps(s: State, e: Eip, resource: string, eni: string, ip: string)
    requires e.status.Some? && e.key in s.kube.eips && s.kube.eips[e.key] == e
    requires e.AllocationId().Some? && e.AllocationId().value in s.aws.addrs
    ensures var s' := Place(s, e, resource, eni, ip);
            && s'.phase == s.phase && s'.tasks == s.tasks
            && forall x :: x in s.aws.addrs && x != e.AllocationId().value && s.aws.addrs[x].association.None? ==>
                s'.aws.addrs[x].association.None?
  {
  }

  /** A node that is not ready gives up the Eip `e`, its first choice, in the status only. */
  lemma GivesItUp(s: State, first: Option<string>, second: Option<string>, n: Node, e: Eip) returns (s': State)
    requires Scene(s, first, second) && Gateway(n) && n.ready == Some("False") && Keyed(s.kube)
    requires Kube.Lists(s.kube, "default", LISTED)
    requires Kube.FirstFree(MatchingNode(s.kube.eips, LISTED, n.labels), n.name) == Some(e)
    requires e.key in s.kube.eips && s.kube.eips[e.key] == e && e.status.Some?
    ensures Quiet(s') && s' == Detach(s, e)
  {
    hide RunsTo, Detach, Kube.FirstFree, MatchingNode, Runs.Reachable;
    var run := TurnRuns.NodeApplyRuns(CLUSTER, s, n, LISTED, None);
    s' := NodeApplied(s, n, LISTED, None);
    TurnRuns.RunsOn(CLUSTER, s, run, s');
    DetachDoes(s, e);
    DetachKeeps(s, e);
  }

  lemma GivesUpFirst(s: State, first: string, second: Option<string>, n: Node) returns (s': State)
    requires Scene(s, Some(first), second) && Gateway(n) && n.ready == Some("False") && n.name == first
    ensures Scene(s', None, second) && s'.kube.nodes == s.kube.nodes && s'.aws == s.aws
    ensures s'.kube.eips[SECOND] == s.kube.eips[SECOND]
    ensures s'.kube.eips[FIRST].AllocationId() == s.kube.eips[FIRST].AllocationId()
    ensures s'.kube.eips[FIRST].status == Some(Kube.Cleared(s'.kube.eips[FIRST].status.value))
  {
    hide Runs.Reachable, Detach, Chosen, Kube.FirstFree, MatchingNode;
    Picks(s, Some(first), second, n);
    s' := GivesItUp(s, Some(first), second, n, s.kube.eips[FIRST]);
    DetachDoes(s, s.kube.eips[FIRST]);
  }

  lemma GivesUpSecond(s: State, first: string, second: string, n: Node) returns (s': State)
    requires Scene(s, Some(first), Some(second)) && Gateway(n) && n.ready == Some("False") && n.name == second
    requires first != second
    ensures Scene(s', Some(first), None) && s'.kube.nodes == s.kube.nodes && s'.aws == s.aws
    ensures s'.kube.eips[SECOND].AllocationId() == s.kube.eips[SECOND].AllocationId()
  {
    hide Runs.Reachable, Detach, Chosen, Kube.FirstFree, MatchingNode;
    Picks(s, Some(first), Some(second), n);
    s' := GivesItUp(s, Some(first), Some(second), n, s.kube.eips[SECOND]);
    DetachDoes(s, s.kube.eips[SECOND]);
  }

  lemma DetachKeeps(s: State, e: Eip)
    requires e.status.Some? && e.key in s.kube.eips && s.kube.eips[e.key] == e
    ensures Detach(s, e).phase == s.phase && Detach(s, e).tasks == s.tasks
  {
  }

  // ---- The story ----

  const WORKER_PLACE := ("eni-1", "10.0.0.1")
  const OTHER_PLACE := ("eni-2", "10.0.0.2")

  lemma Gateways()
    ensures Gateway(WORKER) && Gateway(OTHER) && Gateway(Down(WORKER)) && Gateway(Down(OTHER))
    ensures WORKER.name == "worker" && OTHER.name == "other" && "worker" != "other" && WORKER_PLACE != OTHER_PLACE
    ensures WORKER.ip == Some(WORKER_PLACE.1) && OTHER.ip == Some(OTHER_PLACE.1)
  {
    assert "aws/i-1"[3] == '/' && "aws/i-2"[3] == '/';
    assert |"worker"| != |"other"|;
    assert "eni-1"[4] != "eni-2"[4];
  }

  /** The other node takes the first Eip, the worker the second. */
  lemma BothTaken() returns (s: State)
    ensures Scene(s, Some("other"), Some("worker")) && s.kube.nodes == map["worker" := WORKER, "other" := OTHER]
    ensures Sits(s, s.kube.eips[FIRST], OTHER_PLACE) && Sits(s, s.kube.eips[SECOND], WORKER_PLACE)
  {
    hide Scene, Sits, Loose, Gateway;
    Gateways();
    s := Opening();
    SceneHas(s, None, None);
    LooseIsElsewhere(s, FIRST, OTHER_PLACE);
    s := TakesFirst(s, None, OTHER, OTHER_PLACE.0);
    SceneHas(s, Some("other"), None);
    LooseIsElsewhere(s, SECOND, WORKER_PLACE);
    s := TakesSecond(s, "other", WORKER, WORKER_PLACE.0, OTHER_PLACE);
  }

  lemma SceneHas(s: State, first: Option<string>, second: Option<string>)
    requires Scene(s, first, second)
    ensures Runs.Reachable(CLUSTER, s) && FIRST in s.kube.eips && SECOND in s.kube.eips && FIRST != SECOND
    ensures s.kube.eips[FIRST].ResourceId() == first && s.kube.eips[SECOND].ResourceId() == second
    ensures s.kube.eips[FIRST].key == FIRST && s.kube.eips[SECOND].key == SECOND
  {
    hide Runs.Reachable;
  }

  /** The other node goes down, and the first Eip is free again. */
  lemma FirstFreed() returns (s: State)
    ensures Scene(s, None, Some("worker")) && s.kube.nodes == map["worker" := WORKER, "other" := Down(OTHER)]
    ensures Sits(s, s.kube.eips[FIRST], OTHER_PLACE) && Sits(s, s.kube.eips[SECOND], WORKER_PLACE)
    ensures s.kube.eips[FIRST].status == Some(Kube.Cleared(s.kube.eips[FIRST].status.value))
  {
    hide Scene, Sits, Gateway;
    Gateways();
    s := BothTaken();
    SceneHas(s, Some("other"), Some("worker"));
    var before := s;
    s := Changed(s, Some("other"), Some("worker"), map["worker" := WORKER, "other" := Down(OTHER)]);
    s := GivesUpFirst(s, "other", Some("worker"), Down(OTHER));
    SceneHas(s, None, Some("worker"));
    SitsStill(before, s, FIRST, OTHER_PLACE);
    SitsStill(before, s, SECOND, WORKER_PLACE);
  }

  /** A node can claim two Eips: the worker, still ready, takes the first one too. */
  lemma NodeClaimsTwo() returns (s: State)
    ensures Runs.Reachable(CLUSTER, s) && {FIRST, SECOND} <= s.kube.eips.Keys && FIRST != SECOND
    ensures ClaimedFor(s, FIRST, "worker") && ClaimedFor(s, SECOND, "worker")
  {
    hide Scene, Sits, Gateway;
    Gateways();
    s := FirstFreed();
    SceneHas(s, None, Some("worker"));
    SitsOnce(s, FIRST, OTHER_PLACE, WORKER_PLACE);
    s := TakesFirst(s, Some("worker"), WORKER, WORKER_PLACE.0);
    SceneHas(s, Some("worker"), Some("worker"));
  }

  function ClusterOf(nodes: map<string, Node>): World {
    World("default", LISTED, nodes, {}, map["worker" := "eni-1", "other" := "eni-2"], map[], map[])
  }

  lemma ClusterIsValid(nodes: map<string, Node>)
    requires forall n :: n in nodes ==>
               nodes[n].name == n && (n == "worker" ==> nodes[n].ip == WORKER.ip)
                   && (n == "other" ==> nodes[n].ip == OTHER.ip)
    requires forall n :: n in nodes ==> n == "worker" || n == "other"
    ensures ClusterOf(nodes).Valid()
  {
    assert "a" != "b";
    assert LISTED[0] != LISTED[1];
    assert "10.0.0.1"[7] != "10.0.0.2"[7];
  }

  lemma SceneIsSane(s: State, first: Option<string>, second: Option<string>)
    requires Scene(s, first, second) && ClusterOf(s.kube.nodes).Valid()
    ensures Sane(ClusterOf(s.kube.nodes), s) && NodeKeys(ClusterOf(s.kube.nodes), s) == LISTED
  {
    hide World.Valid, Sane;
    ReachableIsSane(CLUSTER, ClusterOf(s.kube.nodes), s);
    assert Listing(s.kube.eips.Keys, [SECOND], "default") == [SECOND] by {
      assert [SECOND][1..] == [];
    }
    assert LISTED[1..] == [SECOND];
  }

  /** A node can keep its claim though it is not ready, and though nothing is left to do: it goes down while
      an Eip listed earlier is free. */
  lemma NotReadyKeepsItsClaim() returns (s: State)
    ensures Runs.Reachable(CLUSTER, s) && Sane(ClusterOf(s.kube.nodes), s) && Calm(ClusterOf(s.kube.nodes), s)
    ensures "worker" in s.kube.nodes && s.kube.nodes["worker"].ready == Some("False")
    ensures Usable(ClusterOf(s.kube.nodes), "worker")
    ensures SECOND in s.kube.eips && ClaimedFor(s, SECOND, "worker")
  {
    hide Sane, Calm, World.Valid, Scene, Sits, Gateway, Runs.Reachable, Chosen, Kube.FirstFree, MatchingNode, NodeKeys;
    Gateways();
    var nodes := map["worker" := Down(WORKER), "other" := Down(OTHER)];
    s := FirstFreed();
    s := Changed(s, None, Some("worker"), nodes);
    ClusterIsValid(nodes);
    SceneIsSane(s, None, Some("worker"));
    Picks(s, None, Some("worker"), Down(WORKER));
    Picks(s, None, Some("worker"), Down(OTHER));
    AllDownIsCalm(s);
    SceneHas(s, None, Some("worker"));
  }

  lemma AllDownIsCalm(s: State)
    requires Scene(s, None, Some("worker")) && s.kube.nodes == map["worker" := Down(WORKER), "other" := Down(OTHER)]
    requires NodeKeys(ClusterOf(s.kube.nodes), s) == LISTED
    requires Chosen(s.kube.eips, LISTED, Down(WORKER)) == Some(FIRST)
    requires Chosen(s.kube.eips, LISTED, Down(OTHER)) == Some(FIRST)
    requires s.kube.eips[FIRST].status == Some(Kube.Cleared(s.kube.eips[FIRST].status.value))
    ensures Calm(ClusterOf(s.kube.nodes), s)
  {
    hide Runs.Reachable, Listing;
    var w := ClusterOf(s.kube.nodes);
    assert EipCalm(s, s.kube.eips[FIRST]);
    assert "worker" in Kube.Resources(s.kube, s.kube.eips[SECOND]);
    assert NodeChoice(w, s, "worker") == Some(FIRST) && NodeChoice(w, s, "other") == Some(FIRST);
  }

  /** An address can be at a node that does not claim it: the worker goes down and gives up the claim only;
      and when it is ready again its reconcile leaves everything as it is. */
  lemma UnclaimedAtNode() returns (s: State, w: World)
    ensures Runs.Reachable(CLUSTER, s) && Sane(w, s) && Stays(w, s, "worker") && w.Serving("worker")
    ensures AttachedUnclaimed(s, SECOND, "worker", w.NodePlace("worker")) && Turned(w, s, NodeTurn("worker")) == s
  {
    hide Sane, Turned, World.Valid, Scene, Sits, Gateway, NodeChoice, NodeKeys;
    Gateways();
    s := GivenUpInPlace();
    SceneHas(s, Some("other"), None);
    w := ClusterOf(s.kube.nodes);
    ClusterIsValid(s.kube.nodes);
    SceneIsSane(s, Some("other"), None);
    SecondIsChosen(s, w);
    WorkerServes(w, GATEWAY);
    ReadyTurn(w, s, "worker");
  }

  lemma WorkerServes(w: World, labels: map<string, string>)
    requires w == ClusterOf(map["worker" := WORKER.(labels := labels), "other" := OTHER])
    ensures w.Serving("worker") && w.NodePlace("worker") == WORKER_PLACE
  {
    Gateways();
  }

  /** The worker was down for a while, and has given up its claim. */
  lemma GivenUpInPlace() returns (s: State)
    ensures Scene(s, Some("other"), None) && s.kube.nodes == map["worker" := WORKER, "other" := OTHER]
    ensures Sits(s, s.kube.eips[SECOND], WORKER_PLACE)
  {
    hide Scene, Sits, Gateway;
    Gateways();
    s := BothTaken();
    SceneHas(s, Some("other"), Some("worker"));
    var before := s;
    s := Changed(s, Some("other"), Some("worker"), map["worker" := Down(WORKER), "other" := OTHER]);
    s := GivesUpSecond(s, "other", "worker", Down(WORKER));
    s := Changed(s, Some("other"), None, map["worker" := WORKER, "other" := OTHER]);
    SceneHas(s, Some("other"), None);
    SitsStill(before, s, SECOND, WORKER_PLACE);
  }

  lemma SitsStill(s: State, s': State, key: Key, place: (string, string))
    requires key in s.kube.eips && key in s'.kube.eips && Sits(s, s.kube.eips[key], place)
    requires s'.aws == s.aws && s'.kube.eips[key].AllocationId() == s.kube.eips[key].AllocationId()
    ensures Sits(s', s'.kube.eips[key], place)
  {
  }

  lemma SecondIsChosen(s: State, w: World)
    requires Scene(s, Some("other"), None) && NodeKeys(w, s) == LISTED && "worker" in w.nodes
    requires w.nodes["worker"] == WORKER
    ensures NodeChoice(w, s, "worker") == Some(SECOND)
  {
    hide Runs.Reachable;
    assert LISTED[1..] == [SECOND] && [SECOND][1..] == [];
  }

  /** A node can claim an Eip and bring its address in, and stop before it records the association. */
  lemma StopsShort(s: State, n: Node, eni: string) returns (s': State)
    requires Scene(s, None, None) && Gateway(n) && n.ready == Some("True")
    requires Loose(s, FIRST) && s.kube.eips[FIRST].AssociationId() == None
    ensures Scene(s', Some(n.name), None) && Sits(s', s'.kube.eips[FIRST], (eni, n.ip.value))
    ensures s'.kube.eips[FIRST].AssociationId() == None
  {
    hide RunsTo, Reaches, RunTask, Runs.Reachable, Kube.FirstFree, MatchingNode;
    var e := s.kube.eips[FIRST];
    Picks(s, None, None, n);
    var run := NodeStarts(CLUSTER, s, n, false);
    run := NodeLists(CLUSTER, s, run, s, n, LISTED, Describe(NodeActor(n), e, None));
    var address := s.aws.addrs[e.AllocationId().value];
    run := Describes(CLUSTER, s, run, s, NodeActor(n), e, None);
    run := Locates(CLUSTER, s, run, s, n, e, address, eni);
    var k := Kube.SetStatusShouldAttach(s.kube, e, eni, n.ip.value, n.name).value;
    run := Claims(CLUSTER, s, run, s, NodeActor(n), e, address, eni, k);
    run := Associates(CLUSTER, s, run, s.(kube := k), NodeActor(n), e, address, eni);
    s' := s.(kube := k, aws := Aws.Associate(s.aws, e.AllocationId().value, eni, n.ip.value));
    run := Abort(CLUSTER, s, run, s', NodeOwner, RecordAssociation(NodeActor(n), e, address, s.aws.next));
    TurnRuns.RunsOn(CLUSTER, s, run, s');
  }

  /** The Eip's address is the one with its uid. */
  lemma RecordedAlone(w: World, s: State, e: Eip)
    requires Sane(w, s) && e.key in s.kube.eips && s.kube.eips[e.key] == e && e.AllocationId().Some? && !e.deleting
    ensures Aws.Tagged(s.aws, e.uid, [e.AllocationId().value])
  {
    hide Sane;
    RecordedIsTagged(w, s, e);
    forall x | x in s.aws.addrs && s.aws.addrs[x].uid == e.uid ensures x in [e.AllocationId().value] {
      OneTagged(w, s, x, e.AllocationId().value);
    }
  }

  /** The worker has stopped before it recorded the association, and has been relabelled since. */
  lemma Relabelled() returns (s: State)
    ensures Scene(s, Some("worker"), None) && Sits(s, s.kube.eips[FIRST], WORKER_PLACE)
    ensures s.kube.eips[FIRST].AssociationId() == None
    ensures s.kube.nodes == map["worker" := WORKER.(labels := map[]), "other" := OTHER]
  {
    hide Scene, Sits, Gateway;
    Gateways();
    s := Opening();
    s := StopsShort(s, WORKER, WORKER_PLACE.0);
    SceneHas(s, Some("worker"), None);
    var before := s;
    s := Changed(s, Some("worker"), None, map["worker" := WORKER.(labels := map[]), "other" := OTHER]);
    SitsStill(before, s, FIRST, WORKER_PLACE);
  }

  /** The Eip's own reconcile can leave its address at a node in service that does not claim it any more. */
  lemma WithdrawnInPlace() returns (s: State, w: World, t: Turn)
    ensures Runs.Reachable(CLUSTER, s) && Sane(w, s) && CanTurn(w, s, t) && w.Serving("worker")
    ensures FIRST in s.kube.eips && ClaimedFor(s, FIRST, "worker")
    ensures AttachedUnclaimed(Turned(w, s, t), FIRST, "worker", w.NodePlace("worker"))
  {
    hide Sane, Turned, World.Valid, Scene, Sits, NodeKeys, AttachedUnclaimed, Misnamed, Aws.Tagged, World.Serving,
         Kube.Resources;
    s := Relabelled();
    w := ClusterOf(s.kube.nodes);
    WorkerServes(w, map[]);
    ClusterIsValid(s.kube.nodes);
    SceneIsSane(s, Some("worker"), None);
    SceneHas(s, Some("worker"), None);
    FirstIsStranded(s, w);
    t := EipTurn(FIRST, [s.kube.eips[FIRST].AllocationId().value], "x");
    EipTurnLeavesAddress(w, s, t, "worker", WORKER_PLACE);
  }

  lemma FirstIsStranded(s: State, w: World)
    requires Scene(s, Some("worker"), None) && Sane(w, s) && "worker" in s.kube.nodes
    requires s.kube.nodes["worker"].labels == map[]
    requires s.kube.eips[FIRST].AssociationId() == None && Sits(s, s.kube.eips[FIRST], WORKER_PLACE)
    ensures var e := s.kube.eips[FIRST];
            && e.finalizer && !e.deleting && e.AllocationId().Some? && e.AllocationId().value in s.aws.addrs
            && Aws.Tagged(s.aws, e.uid, [e.AllocationId().value]) && "worker" !in Kube.Resources(s.kube, e)
            && Misnamed(s, e)
  {
    hide Sane, Runs.Reachable;
    assert "role" in GATEWAY;
    RecordedAlone(w, s, s.kube.eips[FIRST]);
  }

  // ---- An associate that comes too late ----

  function Labelless(): map<string, Node> {
    map["worker" := WORKER.(labels := map[]), "other" := OTHER]
  }

  /** The task of the worker is about to bring the first Eip's address in. */
  ghost predicate Bringing(s: State, claim: Option<string>) {
    && Runs.Reachable(CLUSTER, s) && s.phase.Running? && s.kube.pods == map[] && s.kube.eips.Keys == {FIRST, SECOND}
    && Has(s, FIRST, claim) && Loose(s, FIRST) && s.kube.eips[FIRST].AssociationId() == None
    && s.tasks.Keys == {NodeOwner} && s.tasks[NodeOwner].Associate?
    && s.tasks[NodeOwner].actor == NodeActor(WORKER) && s.tasks[NodeOwner].eni == WORKER_PLACE.0
    && s.tasks[NodeOwner].eip.AllocationId() == s.kube.eips[FIRST].AllocationId()
  }

  lemma ClaimRuns(s: State, n: Node, e: Eip, eni: string) returns (s': State)
    requires Scene(s, None, None) && Gateway(n) && n.ready == Some("True") && e == s.kube.eips[FIRST] && Loose(s, FIRST)
    ensures Runs.Reachable(CLUSTER, s')
    ensures e.status.Some? && e.AllocationId().Some? && e.AllocationId().value in s.aws.addrs
    ensures s' == Goto(WithClaim(s, e, n.name, eni, n.ip.value), NodeOwner,
                       Associate(NodeActor(n), e, s.aws.addrs[e.AllocationId().value], eni))
  {
    hide RunsTo, Reaches, RunTask, Runs.Reachable, Kube.FirstFree, MatchingNode, Kube.WriteStatus;
    Picks(s, None, None, n);
    var run := NodeStarts(CLUSTER, s, n, false);
    run := NodeLists(CLUSTER, s, run, s, n, LISTED, Describe(NodeActor(n), e, None));
    var address := s.aws.addrs[e.AllocationId().value];
    run := Describes(CLUSTER, s, run, s, NodeActor(n), e, None);
    run := Locates(CLUSTER, s, run, s, n, e, address, eni);
    var m := WithClaim(s, e, n.name, eni, n.ip.value);
    run := Claims(CLUSTER, s, run, s, NodeActor(n), e, address, eni, m.kube);
    GoesTo(CLUSTER, s, run, m, NodeOwner, Associate(NodeActor(n), e, address, eni));
    s' := Goto(m, NodeOwner, Associate(NodeActor(n), e, address, eni));
  }

  lemma ClaimsOnly(s: State) returns (s': State)
    requires Scene(s, None, None) && Gateway(WORKER) && Loose(s, FIRST) && s.kube.eips[FIRST].AssociationId() == None
    ensures Bringing(s', Some("worker"))
  {
    hide Runs.Reachable, WithClaim, Gateway;
    var e := s.kube.eips[FIRST];
    s' := ClaimRuns(s, WORKER, e, WORKER_PLACE.0);
    PlaceDoes(s, e, "worker", WORKER_PLACE.0, WORKER.ip.value);
    ClaimKeepsAws(s, e, "worker", WORKER_PLACE.0, WORKER.ip.value);
    ClaimKeepsRest(s, e, "worker", WORKER_PLACE.0, WORKER.ip.value);
  }

  lemma ClaimKeepsRest(s: State, e: Eip, name: string, eni: string, ip: string)
    requires e.status.Some? && e.key in s.kube.eips && s.kube.eips[e.key] == e
    ensures WithClaim(s, e, name, eni, ip).phase == s.phase && WithClaim(s, e, name, eni, ip).tasks == s.tasks
  {
  }

  lemma GoesTo(c: Config, s: State, run: seq<Step>, m: State, o: Owner, t: Task)
    requires Runs.Reachable(c, s) && Reaches(c, s, run, m, o, t)
    ensures Runs.Reachable(c, Goto(m, o, t))
  {
    hide RunsTo, Runs.Reachable;
    TurnRuns.RunsOn(c, s, run, Goto(m, o, t));
  }

  lemma RelabelledMeanwhile(s: State) returns (s': State)
    requires Bringing(s, Some("worker"))
    ensures Bringing(s', Some("worker")) && s'.kube.nodes == Labelless()
  {
    hide Runs.Reachable;
    Safety.ReachableStep(CLUSTER, s, NodesChange(Labelless()));
    s' := Next(CLUSTER, s, NodesChange(Labelless())).value;
  }

  lemma BringingIsSane(s: State, claim: Option<string>)
    requires Bringing(s, claim) && s.kube.nodes == Labelless()
    ensures Sane(ClusterOf(Labelless()), s)
  {
    hide World.Valid, Sane, Runs.Reachable, Fits;
    ClusterIsValid(Labelless());
    LabellessFits(s.kube);
    ReachableIsSane(CLUSTER, ClusterOf(Labelless()), s);
  }

  lemma LabellessFits(k: Kube.Store)
    requires k.nodes == Labelless() && k.pods == map[] && k.eips.Keys == {FIRST, SECOND}
    ensures Fits(ClusterOf(Labelless()), k)
  {
    assert LISTED[0] == FIRST && LISTED[1] == SECOND;
  }

  /** Meanwhile the Eip's own reconcile withdraws the claim. */
  lemma WithdrawnMeanwhile(s: State) returns (s': State)
    requires Bringing(s, Some("worker")) && s.kube.nodes == Labelless()
    ensures Bringing(s', None)
  {
    hide RunsTo, Runs.Reachable, Sane, Allocated, Start, Detach;
    var e := s.kube.eips[FIRST];
    var w, found := ClusterOf(Labelless()), [e.AllocationId().value];
    BringingIsSane(s, Some("worker"));
    RecordedAlone(w, s, e);
    Watches.EipCanStart(CLUSTER, s, FIRST);
    var run := TurnRuns.EipApplyRuns(CLUSTER, s, e, found, "x");
    var m := NotedEip(s, e);
    TurnRuns.SaneWith(w, m, s);
    AlreadyRecorded(w, m, e, found, "x");
    DetachDoes(m, e);
    LabellessDoesNotMatch(m, e);
    s' := EipApplied(m, e, found, "x");
    TurnRuns.RunsOn(CLUSTER, s, run, s');
  }

  lemma LabellessDoesNotMatch(s: State, e: Eip)
    requires s.kube.nodes == Labelless() && e.selector == NodeSelector(GATEWAY)
    ensures "worker" !in Kube.Resources(s.kube, e)
  {
    assert "role" in GATEWAY;
  }

  /** An associate can come after its claim was withdrawn, and strand the address. */
  lemma AssociatesLate() returns (s: State, step: Step)
    ensures Runs.Reachable(CLUSTER, s) && Next(CLUSTER, s, step).Some? && step.Run? && step.owner == NodeOwner
    ensures FIRST in s.kube.eips && !AttachedUnclaimed(s, FIRST, "worker", WORKER_PLACE)
    ensures AttachedUnclaimed(Next(CLUSTER, s, step).value, FIRST, "worker", WORKER_PLACE)
  {
    hide Runs.Reachable, Scene, Gateway, Bringing, Next, AttachedUnclaimed, StrandingSteps.StrandingCall;
    Gateways();
    s := Opening();
    s := ClaimsOnly(s);
    s := RelabelledMeanwhile(s);
    s := WithdrawnMeanwhile(s);
    step := Run(NodeOwner, Plain);
    BringsNext(s);
    StrandingSteps.OnlyTheseStrand(CLUSTER, s, step, FIRST, "worker", WORKER_PLACE);
  }

  lemma BringsNext(s: State)
    requires Bringing(s, None)
    ensures Runs.Reachable(CLUSTER, s) && FIRST in s.kube.eips && NodeOwner in s.tasks
    ensures s.kube.eips[FIRST].AllocationId().Some?
    ensures Next(CLUSTER, s, Run(NodeOwner, Plain)).Some?
    ensures Safety.SameEip(s, Next(CLUSTER, s, Run(NodeOwner, Plain)).value, FIRST)
    ensures !AttachedUnclaimed(s, FIRST, "worker", WORKER_PLACE)
    ensures StrandingSteps.StrandingCall(s, s.tasks[NodeOwner], FIRST, "worker", WORKER_PLACE)
  {
    hide Runs.Reachable;
  }

  /** A node's cleanup can leave a claim: the worker is relabelled, cleaned up and removed. */
  lemma ClaimOutlivesNode() returns (s: State)
    ensures Runs.Reachable(CLUSTER, s) && "worker" !in s.kube.nodes && SECOND in s.kube.eips
    ensures ClaimedFor(s, SECOND, "worker")
  {
    hide Sits, Runs.Reachable, Scene;
    var n := WORKER.(labels := map[]);
    s := BothTaken();
    s := Changed(s, Some("other"), Some("worker"), map["worker" := n, "other" := OTHER]);
    s := CleansNothing(s, n);
    s := NodesAre(s, map["other" := OTHER]);
  }

  lemma CleansNothing(s: State, n: Node) returns (s': State)
    requires Scene(s, Some("other"), Some("worker")) && n == WORKER.(labels := map[]) && n.name in s.kube.nodes
    ensures Quiet(s') && s'.kube.eips == s.kube.eips && SECOND in s.kube.eips && ClaimedFor(s, SECOND, "worker")
  {
    hide RunsTo, Reaches, RunTask, Runs.Reachable, Kube.Select;
    var actor := NodeActor(n);
    ListsBoth(s);
    assert "role" in GATEWAY && "role" !in n.labels;
    SelectNone(s.kube.eips, LISTED, ClaimedBy(actor));
    var run := NodeStarts(CLUSTER, s, n, true);
    run := CleanupLists(CLUSTER, s, run, s, actor, LISTED);
    run := CleanupTails(CLUSTER, s, run, s, actor);
    s' := s.(kube := Tail(s.kube, actor));
    run := Finalizes(CLUSTER, s, run, s', actor);
    TurnRuns.RunsOn(CLUSTER, s, run, s');
  }

  lemma {:induction false} SelectNone(eips: map<Key, Eip>, keys: seq<Key>, keep: Eip -> bool)
    requires forall i :: 0 <= i < |keys| ==> keys[i] in eips && !keep(eips[keys[i]])
    ensures Kube.Select(eips, keys, keep) == []
  {
    if keys != [] {
      SelectNone(eips, keys[1..], keep);
    }
  }
}
