/** What one might expect of nodes and what does not hold of them: exactly when it does. */
module Limits {
  import opened Base
  import opened Protocol
  import opened Atomic
  import opened Detaching
  import opened Settling
  import opened Convergence
  import opened ApplyTurns
  import opened Turning
  import opened Rest
  import Kube
  import Aws

  predicate ClaimedFor(s: State, key: Key, name: string)
    requires key in s.kube.eips
  {
    s.kube.eips[key].ResourceId() == Some(name)
  }

  /** The address of the Eip is at the node's place, and the node does not claim it. */
  ghost predicate AttachedUnclaimed(s: State, key: Key, name: string, place: (string, string)) {
    key in s.kube.eips && Sits(s, s.kube.eips[key], place) && !ClaimedFor(s, key, name)
  }

  /** The node is there, and its turn is an apply. */
  predicate Stays(w: World, s: State, name: string) {
    name in s.kube.nodes && name in w.nodes && name !in w.leaving
  }

  /** A ready node's turn takes its first choice: the address is there, but not at the node. */
  ghost predicate TakesChoice(w: World, s: State, name: string)
    requires w.Serving(name)
  {
    var choice := NodeChoice(w, s, name);
    choice.Some? &&
    var e := s.kube.eips[choice.value];
    e.AllocationId().Some? && e.AllocationId().value in s.aws.addrs && !Sits(s, e, w.NodePlace(name))
  }

  /** What a ready node's turn is. */
  lemma ReadyTurn(w: World, s: State, name: string)
    requires Sane(w, s) && Stays(w, s, name) && w.Serving(name)
    ensures !TakesChoice(w, s, name) ==> Turned(w, s, NodeTurn(name)) == s
    ensures TakesChoice(w, s, name) ==>
              var e := s.kube.eips[NodeChoice(w, s, name).value];
              && e.key == NodeChoice(w, s, name).value
              && Turned(w, s, NodeTurn(name)) == Place(s, e, name, w.enis[name], w.nodes[name].ip.value)
  {
    hide Sane, Place, Detach, NodeChoice, NodeKeys, Kube.FirstFree, MatchingNode;
    NodeSelects(w, s, name);
    NodeIs(w, s, name);
    if NodeChoice(w, s, name).Some? {
      CurrentKey(w, s, NodeChoice(w, s, name).value);
    }
  }

  /** A ready node's reconcile adds its first choice to its claims, if the address is somewhere else, and
      gives no claim up. */
  lemma NodeTurnClaims(w: World, s: State, name: string, key: Key)
    requires Sane(w, s) && Stays(w, s, name) && w.Serving(name) && key in s.kube.eips
    ensures var s' := Turned(w, s, NodeTurn(name));
            && key in s'.kube.eips
            && (ClaimedFor(s', key, name) <==>
                  ClaimedFor(s, key, name) || (TakesChoice(w, s, name) && NodeChoice(w, s, name) == Some(key)))
  {
    hide Sane, Place, NodeChoice, Turned;
    ReadyTurn(w, s, name);
    if TakesChoice(w, s, name) {
      PlaceDoes(s, s.kube.eips[NodeChoice(w, s, name).value], name, w.enis[name], w.nodes[name].ip.value);
    }
  }

  /** A ready node's reconcile leaves an address at the node that it does not claim exactly if there was one,
      and it takes nothing: its first choice is in place already, or has no address, or there is none. */
  lemma ReadyLeavesUnclaimed(w: World, s: State, name: string, key: Key)
    requires Sane(w, s) && Stays(w, s, name) && w.Serving(name) && key in s.kube.eips
    ensures AttachedUnclaimed(Turned(w, s, NodeTurn(name)), key, name, w.NodePlace(name)) <==>
              AttachedUnclaimed(s, key, name, w.NodePlace(name)) && !TakesChoice(w, s, name)
  {
    hide Sane, Place, NodeChoice, Turned;
    ReadyTurn(w, s, name);
    if TakesChoice(w, s, name) {
      var e := s.kube.eips[NodeChoice(w, s, name).value];
      var s' := Turned(w, s, NodeTurn(name));
      PlaceDoes(s, e, name, w.enis[name], w.nodes[name].ip.value);
      if key != e.key {
        PlaceTakesOver(w, s, e, key, name, w.enis[name], w.nodes[name].ip.value);
      }
    }
  }

  /** No other Eip's address is where one has just been placed. */
  lemma PlaceTakesOver(w: World, s: State, e: Eip, key: Key, resource: string, eni: string, ip: string)
    requires Sane(w, s) && e.key in s.kube.eips && s.kube.eips[e.key] == e && key in s.kube.eips && key != e.key
    requires e.status.Some? && e.AllocationId().Some? && e.AllocationId().value in s.aws.addrs
    ensures var s' := Place(s, e, resource, eni, ip);
            key in s'.kube.eips && !Sits(s', s'.kube.eips[key], (eni, ip))
  {
    hide World.Valid, IdsSane, Fits, FlagsSane;
    PlaceDoes(s, e, resource, eni, ip);
    assert StatusSane(s, e) && StatusSane(s, s.kube.eips[key]);
  }

  /** What the turn of a node that is not ready is. */
  lemma NotReadyTurn(w: World, s: State, name: string)
    requires Sane(w, s) && Stays(w, s, name) && w.nodes[name].ready != Some("True")
    ensures var choice := NodeChoice(w, s, name);
            Turned(w, s, NodeTurn(name)) == if Usable(w, name) && choice.Some?
                then Detach(s, s.kube.eips[choice.value]) else s
    ensures NodeChoice(w, s, name).Some? ==>
              s.kube.eips[NodeChoice(w, s, name).value].key == NodeChoice(w, s, name).value
  {
    hide Sane, Place, Detach, NodeChoice, NodeKeys, Kube.FirstFree, MatchingNode;
    NodeSelects(w, s, name);
    NodeIs(w, s, name);
    if NodeChoice(w, s, name).Some? {
      CurrentKey(w, s, NodeChoice(w, s, name).value);
    }
  }

  /** A node that is not ready gives its claim up in the status only. After its reconcile an address that was
      at some place is there unclaimed exactly if it was unclaimed before, or if the node says where it is and
      the Eip is its first choice. */
  lemma NotReadyLeavesAddress(w: World, s: State, name: string, key: Key, place: (string, string))
    requires Sane(w, s) && Stays(w, s, name) && w.nodes[name].ready != Some("True") && key in s.kube.eips
    ensures AttachedUnclaimed(Turned(w, s, NodeTurn(name)), key, name, place) <==>
              && Sits(s, s.kube.eips[key], place)
              && (!ClaimedFor(s, key, name) || (Usable(w, name) && NodeChoice(w, s, name) == Some(key)))
  {
    hide Sane, Detach, NodeChoice, Turned;
    NotReadyTurn(w, s, name);
    var choice := NodeChoice(w, s, name);
    if Usable(w, name) && choice.Some? {
      DetachDoes(s, s.kube.eips[choice.value]);
    }
  }

  /** The Eip's reconcile withdraws a claim by a resource that its listing lacks. */
  ghost predicate Withdraws(s: State, e: Eip) {
    e.ResourceId().Some? && e.ResourceId().value !in Kube.Resources(s.kube, e)
  }

  /** The status names another association than the one the address has, or none. */
  ghost predicate Misnamed(s: State, e: Eip)
    requires e.AllocationId().Some? && e.AllocationId().value in s.aws.addrs
  {
    Aws.AssociationOf(s.aws.addrs[e.AllocationId().value]) != e.AssociationId()
  }

  /** An Eip's reconcile that withdraws a claim takes off only the association that the status names. After it
      the address is at a place unclaimed exactly if it was there, unclaimed or with the claim withdrawn now,
      and no claim is withdrawn unless the status misnames the association. */
  lemma EipTurnLeavesAddress(w: World, s: State, t: Turn, name: string, place: (string, string))
    requires Sane(w, s) && t.EipTurn? && CanTurn(w, s, t) && t.key in s.kube.eips
    requires var e := s.kube.eips[t.key]; e.finalizer && !e.deleting && e.AllocationId().Some?
    ensures s.kube.eips[t.key].AllocationId().value in s.aws.addrs
    ensures var e := s.kube.eips[t.key];
            AttachedUnclaimed(Turned(w, s, t), t.key, name, place) <==>
              && Sits(s, e, place)
              && (!ClaimedFor(s, t.key, name) || name !in Kube.Resources(s.kube, e))
              && (Withdraws(s, e) ==> Misnamed(s, e))
  {
    hide Sane, Detach, Allocated;
    var e := s.kube.eips[t.key];
    CurrentKey(w, s, t.key);
    AlreadyRecorded(w, s, e, t.found, t.publicIp);
    RecordedIsTagged(w, s, e);
    if Withdraws(s, e) {
      DetachDoes(s, e);
    }
  }

  /** A node's cleanup leaves it exactly the claims on Eips that do not match its labels. */
  lemma CleanupLeavesUnmatched(k: Kube.Store, k': Kube.Store, ns: string, n: Node, todo: seq<Eip>, key: Key)
    requires Keyed(k) && FreedAll(k, k', todo) && key in k.eips && key.ns == ns
    requires forall e :: e in todo <==> MustFree(k, ns, NodeActor(n), e)
    ensures k'.eips[key].ResourceId() == Some(n.name) <==>
            k.eips[key].ResourceId() == Some(n.name) && !k.eips[key].MatchesNode(n.labels)
  {
    if HasKey(todo, key) {
      var i :| 0 <= i < |todo| && todo[i].key == key;
      assert MustFree(k, ns, NodeActor(n), todo[i]);
    } else if ClaimedBy(NodeActor(n))(k.eips[key]) {
      NoneLeft(k, k', ns, NodeActor(n), todo, key);
    }
  }
}
