/** Labelling the node that serves egress traffic: the hand-over from one node to another. */
module Egress {
  import opened Base
  import opened Services
  import opened Selectors
  import Kube

  /** The nodes an Eip's listing returns. A listing by name finds the node of that name. */
  function EgressNodes(nodes: map<string, Node>, e: Eip): set<string> {
    match e.selector
    case PodSelector(p) => if p in nodes then {p} else {}
    case NodeSelector(labels) => set n | n in nodes && LabelsMatch(labels, nodes[n].labels)
  }

  /** The selector is met by the node: by its labels, or for a selector of a pod by its name. */
  predicate Selected(nodes: map<string, Node>, e: Eip, n: string) {
    n in nodes && (e.MatchesNode(nodes[n].labels) || e.MatchesPod(n))
  }

  /** The listing finds exactly the nodes that the selector matches. */
  lemma EgressNodesMatch(nodes: map<string, Node>, e: Eip)
    ensures forall n :: n in EgressNodes(nodes, e) <==> Selected(nodes, e, n)
  {
  }

  /** They are the nodes that the API server lists for the selector as the operator prints it. */
  lemma ServerListsEgressNodes(nodes: map<string, Node>, e: Eip, keys: seq<string>, n: string)
    requires match e.selector
             case PodSelector(podName) => LegalText(podName)
             case NodeSelector(labels) => LegalLabels(labels) && Enumerates(keys, labels)
    ensures n in EgressNodes(nodes, e) <==>
              n in nodes && ServerSelects(ResourceListParams(e, keys), n, nodes[n].labels)
  {
    hide ServerSelects, ResourceListParams, Enumerates, LegalLabels, LegalText;
    if n in nodes {
      if e.selector.NodeSelector? {
        LabelSelectorAgrees(e, keys, n, nodes[n].labels);
      } else {
        FieldSelectorAgrees(e, keys, n, nodes[n].labels);
      }
    }
  }

  predicate Carries(nodes: map<string, Node>, n: string, value: string) {
    n in nodes && EGRESS_LABEL in nodes[n].labels && nodes[n].labels[EGRESS_LABEL] == value
  }

  /** No node differs but in that label, and none but those of `among` differs at all. */
  predicate OnlyRelabels(before: map<string, Node>, after: map<string, Node>, among: set<string>) {
    && after.Keys == before.Keys
    && forall n :: n in before ==>
         || after[n] == before[n]
         || (&& n in among && EGRESS_LABEL in after[n].labels
             && after[n] == before[n].(labels := before[n].labels[EGRESS_LABEL := after[n].labels[EGRESS_LABEL]]))
  }

  predicate Serves(nodes: map<string, Node>, n: string) {
    Carries(nodes, n, "true")
  }

  function Serving(nodes: map<string, Node>, among: set<string>): set<string> {
    set n | n in among && Serves(nodes, n)
  }

  function Labelled(nodes: map<string, Node>, n: string, value: string): map<string, Node>
    requires n in nodes
  {
    nodes[n := nodes[n].(labels := nodes[n].labels[EGRESS_LABEL := value])]
  }

  /** The Eip is claimed by a listed node that is ready. */
  predicate HandsOver(nodes: map<string, Node>, e: Eip) {
    && e.ResourceId().Some? && e.ResourceId().value in EgressNodes(nodes, e)
    && e.ResourceId().value in nodes && nodes[e.ResourceId().value].ready == Some("True")
  }

  /** The node that claims the Eip, if the selector matches it. */
  function ClaimedBy(nodes: map<string, Node>, e: Eip): Option<Node> {
    if e.ResourceId().Some? && Selected(nodes, e, e.ResourceId().value) then Some(nodes[e.ResourceId().value]) else None
  }

  predicate KeyedNodes(nodes: map<string, Node>) {
    forall n :: n in nodes ==> nodes[n].name == n
  }

  /** `trace` is a hand-over to `node`: one label is set at a time, to "true" on the node first and then to
      "false" on others. */
  ghost predicate HandOver(trace: seq<map<string, Node>>, among: set<string>, node: string) {
    && |trace| > 1 && node in trace[0] && trace[1] == Labelled(trace[0], node, "true")
    && forall i :: 1 <= i < |trace| - 1 ==> Drops(trace[i], trace[i + 1], among, node)
  }

  ghost predicate Drops(nodes: map<string, Node>, nodes': map<string, Node>, among: set<string>, node: string) {
    exists n :: n in nodes && n in among && n != node && nodes' == Labelled(nodes, n, "false")
  }

  method AddGatewayStatusLabel(api: ApiServer, name: string, status: string) returns (r: Result<()>)
    modifies api
    ensures Answered(old(api.store), Kube.LabelNode(old(api.store), name, status), api.store, r, api.reliable)
  {
    r := api.Write(Kube.LabelNode(api.store, name, status));
  }

  /** Without a hand-over no label changes, whatever fails; and if it succeeds with one, exactly the node that
      claims the Eip serves, of the nodes listed. A node that the selector does not match is never touched, and
      of the others only that one label. The answers when no call fails are those given last. */
  method LabelEgressNodes(api: ApiServer, e: Eip) returns (r: Result<()>, ghost trace: seq<map<string, Node>>)
    requires KeyedNodes(api.store.nodes)
    modifies api
    ensures api.store == old(api.store).(nodes := api.store.nodes)
    ensures trace != [] && trace[0] == old(api.store).nodes && trace[|trace| - 1] == api.store.nodes
    ensures !HandsOver(trace[0], e) ==> |trace| == 1
    ensures |trace| > 1 ==> HandOver(trace, EgressNodes(trace[0], e), e.ResourceId().value)
    ensures r.Ok? && HandsOver(trace[0], e) ==>
              Serving(api.store.nodes, EgressNodes(trace[0], e)) == {e.ResourceId().value}
    ensures api.reliable ==>
              r == if EgressNodes(trace[0], e) == {} || e.ResourceId().None? then Ok(())
                   else if e.ResourceId().value !in EgressNodes(trace[0], e) then Err(MissingNodeName)
                   else if trace[0][e.ResourceId().value].ready.None? then Err(MissingNodeReadyCondition)
                   else Ok(())
    ensures forall n :: n in old(api.store).nodes && !Selected(old(api.store).nodes, e, n) ==>
              n in api.store.nodes && api.store.nodes[n] == old(api.store).nodes[n]
    ensures OnlyRelabels(old(api.store).nodes, api.store.nodes, EgressNodes(old(api.store).nodes, e))
    ensures ClaimedBy(old(api.store).nodes, e).None?
            || ClaimedBy(old(api.store).nodes, e).value.ready != Some("True") ==>
              api.store == old(api.store)
    ensures r.Ok? && ClaimedBy(old(api.store).nodes, e).Some?
              && ClaimedBy(old(api.store).nodes, e).value.ready == Some("True") ==>
              forall n :: Selected(old(api.store).nodes, e, n) ==>
                Carries(api.store.nodes, n, if Some(n) == e.ResourceId() then "true" else "false")
    ensures api.reliable ==>
              if e.ResourceId().None? || forall n :: !Selected(old(api.store).nodes, e, n) then r == Ok(())
              else if ClaimedBy(old(api.store).nodes, e).None? then r == Err(MissingNodeName)
              else if ClaimedBy(old(api.store).nodes, e).value.ready.None? then r == Err(MissingNodeReadyCondition)
              else r == Ok(())
  {
    ghost var before := api.store.nodes;
    EgressNodesMatch(before, e);
    trace := [before];
    ghost var among := EgressNodes(before, e);
    var listed := api.ListNodes(EgressNodes(api.store.nodes, e));
    if listed.Err? {
      return Err(listed.error), trace;
    }
    var nodes := listed.value;
    assert |nodes| == 0 <==> among == {};
    if |nodes| == 0 {
      return Ok(()), trace;
    }
    if e.ResourceId().None? {
      return Ok(()), trace;
    }
    var claimant := e.ResourceId().value;
    var node := Find(nodes, claimant);
    FindsListed(before, among, nodes, claimant);
    if node.None? {
      return Err(MissingNodeName), trace;
    }
    if node.value.ready.None? {
      return Err(MissingNodeReadyCondition), trace;
    }
    if node.value.ready.value != "True" {
      return Ok(()), trace;
    }
    r, trace := MakeServing(api, nodes, claimant, among);
    if r.Ok? {
      ServesAlone(before, api.store.nodes, among, nodes, claimant);
    }
  }

  /** Label the node "true", and then every other one of the list "false". */
  method MakeServing(api: ApiServer, nodes: seq<Node>, claimant: string, ghost among: set<string>)
    returns (r: Result<()>, ghost trace: seq<map<string, Node>>)
    requires claimant in among && among <= api.store.nodes.Keys
    requires forall i :: 0 <= i < |nodes| ==> nodes[i].name in among
    modifies api
    ensures api.store == old(api.store).(nodes := api.store.nodes)
    ensures trace != [] && trace[0] == old(api.store).nodes && trace[|trace| - 1] == api.store.nodes
    ensures |trace| > 1 ==> HandOver(trace, among, claimant)
    ensures r.Ok? ==> Serves(api.store.nodes, claimant)
    ensures r.Ok? ==> forall i :: 0 <= i < |nodes| && nodes[i].name != claimant ==>
              Carries(api.store.nodes, nodes[i].name, "false")
    ensures OnlyRelabels(old(api.store).nodes, api.store.nodes, among)
    ensures api.reliable ==> r == Ok(())
  {
    hide OnlyRelabels, Carries;
    ghost var before := api.store.nodes;
    Relabels(before, before, among, claimant, "true");
    trace := [api.store.nodes];
    r := AddGatewayStatusLabel(api, claimant, "true");
    if r.Err? {
      return r, trace;
    }
    trace := trace + [api.store.nodes];
    for i := 0 to |nodes|
      invariant api.store == old(api.store).(nodes := api.store.nodes)
      invariant |trace| > 1 && trace[0] == old(api.store).nodes && trace[|trace| - 1] == api.store.nodes
      invariant HandOver(trace, among, claimant)
      invariant api.store.nodes.Keys == old(api.store).nodes.Keys && Serves(api.store.nodes, claimant)
      invariant forall j :: 0 <= j < i && nodes[j].name != claimant ==> Carries(api.store.nodes, nodes[j].name, "false")
      invariant OnlyRelabels(before, api.store.nodes, among)
    {
      if nodes[i].name != claimant {
        ghost var last := api.store.nodes;
        Relabels(before, last, among, nodes[i].name, "false");
        var labelled := AddGatewayStatusLabel(api, nodes[i].name, "false");
        if labelled.Err? {
          return labelled, trace;
        }
        OneMoreDrop(trace, last, api.store.nodes, among, claimant, nodes[i].name);
        trace := trace + [api.store.nodes];
      }
    }
    return Ok(()), trace;
  }

  lemma Relabels(before: map<string, Node>, last: map<string, Node>, among: set<string>, n: string, value: string)
    requires OnlyRelabels(before, last, among) || last == before
    ensures OnlyRelabels(before, last, among)
    ensures n in last && n in among ==>
              && OnlyRelabels(before, Labelled(last, n, value), among) && Carries(Labelled(last, n, value), n, value)
              && forall other, v :: other != n && Carries(last, other, v) ==>
                  Carries(Labelled(last, n, value), other, v)
  {
  }

  lemma OneMoreDrop(trace: seq<map<string, Node>>, last: map<string, Node>, next: map<string, Node>,
                    among: set<string>, node: string, n: string)
    requires HandOver(trace, among, node) && trace[|trace| - 1] == last && n in last && n in among && n != node
    requires next == Labelled(last, n, "false")
    ensures HandOver(trace + [next], among, node)
  {
    assert Drops(last, next, among, node);
  }

  lemma ServesAlone(before: map<string, Node>, after: map<string, Node>, among: set<string>, listed: seq<Node>,
                    node: string)
    requires KeyedNodes(before) && among <= before.Keys && node in among && Serves(after, node)
    requires forall n :: n in among ==> before[n] in listed
    requires forall i :: 0 <= i < |listed| && listed[i].name != node ==> Carries(after, listed[i].name, "false")
    ensures Serving(after, among) == {node}
    ensures forall n :: n in among ==> Carries(after, n, if n == node then "true" else "false")
  {
    forall n | n in among ensures Carries(after, n, if n == node then "true" else "false") {
      assert before[n] in listed && before[n].name == n;
    }
  }

  function Find(nodes: seq<Node>, name: string): (r: Option<Node>)
    ensures r.Some? ==> r.value in nodes && r.value.name == name
    ensures r.None? ==> forall i :: 0 <= i < |nodes| ==> nodes[i].name != name
  {
    if nodes == [] then None else if nodes[0].name == name then Some(nodes[0]) else Find(nodes[1..], name)
  }

  lemma FindsListed(nodes: map<string, Node>, among: set<string>, listed: seq<Node>, name: string)
    requires KeyedNodes(nodes) && among <= nodes.Keys
    requires forall n :: n in among ==> nodes[n] in listed
    requires forall i :: 0 <= i < |listed| ==> exists n :: n in among && nodes[n] == listed[i]
    ensures Find(listed, name) == if name in among then Some(nodes[name]) else None
    ensures forall i :: 0 <= i < |listed| ==> listed[i].name in among
  {
  }

  // ---- What a hand-over means while it goes on ----

  /** From the first label on the node serves, in every state in between; and of the nodes listed, never one
      starts to serve that did not serve before. */
  lemma {:induction false} NeverUnserved(trace: seq<map<string, Node>>, among: set<string>, node: string, i: nat)
    requires HandOver(trace, among, node) && 1 <= i < |trace|
    ensures Serves(trace[i], node)
    ensures Serving(trace[i], among) <= Serving(trace[1], among) <= Serving(trace[0], among) + {node}
    ensures i + 1 < |trace| ==> Serving(trace[i + 1], among) <= Serving(trace[i], among)
    ensures trace[i].Keys == trace[0].Keys && forall n :: n in trace[0] && n !in among && n != node ==>
              trace[i][n] == trace[0][n]
  {
    if i > 1 {
      NeverUnserved(trace, among, node, i - 1);
      assert Drops(trace[i - 1], trace[i], among, node);
    }
    if i + 1 < |trace| {
      assert Drops(trace[i], trace[i + 1], among, node);
    }
  }
}
