/**
 The agent that keeps Cilium from masquerading traffic of secondary interfaces: one iptables chain and the
 table of ip rules, which it completes again and again while others may delete from them.
 */
module Agent {

  const FW_MASK: bv32 := 0xf
  const FIRST: bv32 := 1
  const LAST: bv32 := 15

  /** Rules of the chain: restore the connection's mark on traffic of pods, or set it on traffic of eth{i}. */
  datatype ChainRule = RestoreMark | SetMark(i: bv32) | OtherRule(text: string)

  datatype Nla = FwMark(mark: bv32) | FwMask(mask: bv32) | OtherNla(text: string)

  datatype IpRule = IpRule(table: bv32, priority: nat, nlas: seq<Nla>)

  function AgentRule(i: bv32): IpRule {
    IpRule(10 + i, 200, [FwMark(i), FwMask(FW_MASK)])
  }

  function FirstMark(nlas: seq<Nla>): (r: seq<bv32>)
    ensures |r| <= 1
    ensures r == [] <==> forall m :: FwMark(m) !in nlas
    ensures r != [] ==> FwMark(r[0]) in nlas
  {
    if nlas == [] then []
    else if nlas[0].FwMark? then [nlas[0].mark]
    else FirstMark(nlas[1..])
  }

  predicate HasMask(rule: IpRule) {
    FwMask(FW_MASK) in rule.nlas
  }

  /** A rule with the mask but no mark: reading the rules then panics. */
  predicate Malformed(rule: IpRule) {
    HasMask(rule) && FirstMark(rule.nlas) == []
  }

  predicate Covers(rule: IpRule, i: bv32) {
    HasMask(rule) && FirstMark(rule.nlas) == [i]
  }

  predicate Covered(rules: seq<IpRule>, i: bv32) {
    exists k :: 0 <= k < |rules| && Covers(rules[k], i)
  }

  predicate WellFormed(rules: seq<IpRule>) {
    forall k :: 0 <= k < |rules| ==> !Malformed(rules[k])
  }

  predicate InRange(i: bv32) {
    FIRST <= i <= LAST
  }

  /** The chain and the table have what the agent provides. */
  ghost predicate Complete(chain: seq<ChainRule>, rules: seq<IpRule>) {
    && RestoreMark in chain
    && (forall i: bv32 :: InRange(i) ==> SetMark(i) in chain && Covered(rules, i))
  }

  /** `after` is `before` with agent's rules behind it, each once and only where one was missing. */
  ghost predicate Completed(before: seq<ChainRule>, after: seq<ChainRule>) {
    && |after| >= |before| && after[..|before|] == before
    && (forall k :: |before| <= k < |after| ==>
          (after[k] == RestoreMark || (after[k].SetMark? && InRange(after[k].i))) && after[k] !in after[..k])
  }

  ghost predicate RulesCompleted(before: seq<IpRule>, after: seq<IpRule>) {
    && |after| >= |before| && after[..|before|] == before
    && (forall k :: |before| <= k < |after| ==>
          exists i :: InRange(i) && after[k] == AgentRule(i) && !Covered(after[..k], i))
  }

  /** Complete for the marks below `i`. */
  ghost predicate CompleteBelow(chain: seq<ChainRule>, rules: seq<IpRule>, i: bv32) {
    RestoreMark in chain && forall j: bv32 :: FIRST <= j < i ==> SetMark(j) in chain && Covered(rules, j)
  }

  /** From `i` on, the marks read at the start of the pass are still those in use. */
  ghost predicate Tracks(rules: seq<IpRule>, existing: set<bv32>, i: bv32) {
    forall j: bv32 :: i <= j ==> (Covered(rules, j) <==> j in existing)
  }

  lemma TracksHere(rules: seq<IpRule>, existing: set<bv32>, i: bv32)
    requires Tracks(rules, existing, i)
    ensures Covered(rules, i) <==> i in existing
  {
  }

  lemma OneMoreMark(chain: seq<ChainRule>, rules: seq<IpRule>, existing: set<bv32>, i: bv32)
    requires CompleteBelow(chain, rules, i) && Tracks(rules, existing, i) && InRange(i)
    ensures var chain' := if SetMark(i) in chain then chain else chain + [SetMark(i)];
            var rules' := if i in existing then rules else rules + [AgentRule(i)];
            CompleteBelow(chain', rules', i + 1) && Tracks(rules', existing, i + 1)
  {
    hide Covered, Covers;
    CoveredByOneMore(rules, AgentRule(i));
    forall j: bv32 ensures Covers(AgentRule(i), j) <==> i == j {
      AgentRuleCovers(i, j);
    }
    assert i in existing ==> Covered(rules, i);
    var chain' := if SetMark(i) in chain then chain else chain + [SetMark(i)];
    assert forall rule :: rule in chain ==> rule in chain';
  }

  class RuleManager {
    var chain: seq<ChainRule>
    var rules: seq<IpRule>

    constructor (chain: seq<ChainRule>, rules: seq<IpRule>)
      ensures this.chain == chain && this.rules == rules
    {
      this.chain := chain;
      this.rules := rules;
    }

    method EnsureIptablesRule(rule: ChainRule)
      modifies this`chain
      ensures chain == if rule in old(chain) then old(chain) else old(chain) + [rule]
    {
      if rule !in chain {
        chain := chain + [rule];
      }
    }

    /** The marks of the rules with the agent's mask; `ok` is false when one of them has no mark. */
    method GetEniIndexes() returns (ok: bool, marks: set<bv32>)
      ensures ok <==> WellFormed(rules)
      ensures ok ==> forall i :: i in marks <==> Covered(rules, i)
    {
      marks := {};
      for k := 0 to |rules|
        invariant WellFormed(rules[..k])
        invariant forall i :: i in marks <==> Covered(rules[..k], i)
      {
        assert rules[..k + 1] == rules[..k] + [rules[k]];
        CoveredByOneMore(rules[..k], rules[k]);
        if HasMask(rules[k]) {
          var mark := FirstMark(rules[k].nlas);
          if mark == [] {
            assert Malformed(rules[k]);
            return false, {};
          }
          marks := marks + {mark[0]};
        }
      }
      assert rules[..|rules|] == rules;
      return true, marks;
    }

    method InsertIpRule(i: bv32)
      modifies this`rules
      ensures rules == old(rules) + [AgentRule(i)]
    {
      rules := rules + [AgentRule(i)];
    }

    /** One pass. Unless a rule cannot be read, everything is in place afterwards, and only what was missing
        has been added. */
    method Pass() returns (ok: bool)
      modifies this
      ensures ok <==> WellFormed(old(rules))
      ensures ok ==> Complete(chain, rules)
      ensures ok ==> RestoreMark in chain && forall i: bv32 :: 1 <= i <= 15 ==> SetMark(i) in chain && Covered(rules, i)
      ensures Completed(old(chain), chain) && RulesCompleted(old(rules), rules)
      ensures !ok ==>
                && rules == old(rules)
                && chain == if RestoreMark in old(chain) then old(chain) else old(chain) + [RestoreMark]
    {
      EnsureIptablesRule(RestoreMark);
      var existing;
      ok, existing := GetEniIndexes();
      if !ok {
        return;
      }
      var i := FIRST;
      while i <= LAST
        invariant FIRST <= i <= LAST + 1
        invariant Completed(old(chain), chain) && RulesCompleted(old(rules), rules)
        invariant CompleteBelow(chain, rules, i) && Tracks(rules, existing, i)
        decreases LAST + 1 - i
      {
        hide Completed, RulesCompleted, CompleteBelow, Tracks, Covered;
        ghost var chain0, rules0 := chain, rules;
        EnsureIptablesRule(SetMark(i));
        CompletedByOneMore(old(chain), chain0, SetMark(i));
        TracksHere(rules, existing, i);
        if i !in existing {
          RulesCompletedByOneMore(old(rules), rules, i);
          InsertIpRule(i);
        }
        OneMoreMark(chain0, rules0, existing, i);
        i := i + 1;
      }
    }
  }

  lemma CoveredByOneMore(rules: seq<IpRule>, rule: IpRule)
    ensures forall i :: Covered(rules + [rule], i) <==> Covered(rules, i) || Covers(rule, i)
  {
    forall i ensures Covered(rules + [rule], i) <==> Covered(rules, i) || Covers(rule, i) {
      if Covered(rules, i) {
        var k :| 0 <= k < |rules| && Covers(rules[k], i);
        assert (rules + [rule])[k] == rules[k];
      }
      if Covers(rule, i) {
        assert (rules + [rule])[|rules|] == rule;
      }
    }
  }

  lemma CompletedByOneMore(before: seq<ChainRule>, after: seq<ChainRule>, rule: ChainRule)
    requires Completed(before, after) && (rule == RestoreMark || (rule.SetMark? && InRange(rule.i)))
    ensures Completed(before, if rule in after then after else after + [rule])
  {
    if rule !in after {
      var longer := after + [rule];
      forall k | |before| <= k < |longer|
        ensures (longer[k] == RestoreMark || (longer[k].SetMark? && InRange(longer[k].i))) && longer[k] !in longer[..k]
      {
        if k < |after| {
          assert longer[..k] == after[..k];
        } else {
          assert longer[..k] == after;
        }
      }
    }
  }

  lemma RulesCompletedByOneMore(before: seq<IpRule>, after: seq<IpRule>, i: bv32)
    requires RulesCompleted(before, after) && InRange(i) && !Covered(after, i)
    ensures RulesCompleted(before, after + [AgentRule(i)])
  {
    var longer := after + [AgentRule(i)];
    forall k | |before| <= k < |longer|
      ensures exists j :: InRange(j) && longer[k] == AgentRule(j) && !Covered(longer[..k], j)
    {
      if k < |after| {
        assert longer[..k] == after[..k];
      } else {
        assert longer[..k] == after;
      }
    }
  }

  lemma AgentRuleCovers(i: bv32, j: bv32)
    ensures Covers(AgentRule(i), j) <==> i == j
  {
    assert AgentRule(i).nlas[1] == FwMask(FW_MASK);
    assert FirstMark(AgentRule(i).nlas) == [i];
  }

  // ---- Many passes ----

  /** Nothing the agent adds is there twice. */
  ghost predicate NoneTwice(chain: seq<ChainRule>, rules: seq<IpRule>) {
    && (forall j, k :: 0 <= j < k < |chain| && !chain[j].OtherRule? ==> chain[j] != chain[k])
    && (forall i, j, k :: InRange(i) && 0 <= j < k < |rules| && Covers(rules[j], i) ==> rules[k] != AgentRule(i))
  }

  /** What others may do between passes: delete rules, keeping the order of the rest. */
  ghost predicate Deletes<T(!new)>(before: seq<T>, after: seq<T>)
    decreases |before|
  {
    if before == [] then after == []
    else Deletes(before[1..], after) || (after != [] && after[0] == before[0] && Deletes(before[1..], after[1..]))
  }

  datatype Tables = Tables(chain: seq<ChainRule>, rules: seq<IpRule>)

  ghost predicate Passes(a: Tables, b: Tables) {
    Completed(a.chain, b.chain) && RulesCompleted(a.rules, b.rules)
        && (WellFormed(a.rules) ==> Complete(b.chain, b.rules))
  }

  ghost predicate Others(a: Tables, b: Tables) {
    Deletes(a.chain, b.chain) && Deletes(a.rules, b.rules)
  }

  lemma PassKeepsNoneTwice(a: Tables, b: Tables)
    requires NoneTwice(a.chain, a.rules) && Passes(a, b)
    ensures NoneTwice(b.chain, b.rules)
  {
    forall j, k | 0 <= j < k < |b.chain| && !b.chain[j].OtherRule? ensures b.chain[j] != b.chain[k] {
      if k >= |a.chain| {
        assert b.chain[j] in b.chain[..k];
      } else {
        assert b.chain[..|a.chain|][j] == a.chain[j] && b.chain[..|a.chain|][k] == a.chain[k];
      }
    }
    forall i, j, k | InRange(i) && 0 <= j < k < |b.rules| && Covers(b.rules[j], i) ensures b.rules[k] != AgentRule(i) {
      if k >= |a.rules| {
        var m :| InRange(m) && b.rules[k] == AgentRule(m) && !Covered(b.rules[..k], m);
        assert b.rules[..k][j] == b.rules[j];
      } else {
        assert b.rules[..|a.rules|][j] == a.rules[j] && b.rules[..|a.rules|][k] == a.rules[k];
      }
    }
  }

  /** Where the kept elements were. */
  lemma {:induction false} DeletedFrom<T(!new)>(before: seq<T>, after: seq<T>, j: nat, k: nat)
      returns (j': nat, k': nat)
    requires Deletes(before, after) && j < k < |after|
    ensures j' < k' < |before| && before[j'] == after[j] && before[k'] == after[k]
    decreases |before|
  {
    if Deletes(before[1..], after) {
      j', k' := DeletedFrom(before[1..], after, j, k);
      j', k' := j' + 1, k' + 1;
    } else if j > 0 {
      j', k' := DeletedFrom(before[1..], after[1..], j - 1, k - 1);
      j', k' := j' + 1, k' + 1;
    } else {
      k' := DeletedAt(before[1..], after[1..], k - 1);
      j', k' := 0, k' + 1;
    }
  }

  lemma {:induction false} DeletedAt<T(!new)>(before: seq<T>, after: seq<T>, k: nat) returns (k': nat)
    requires Deletes(before, after) && k < |after|
    ensures k' < |before| && before[k'] == after[k]
    decreases |before|
  {
    if Deletes(before[1..], after) {
      k' := DeletedAt(before[1..], after, k);
      k' := k' + 1;
    } else if k > 0 {
      k' := DeletedAt(before[1..], after[1..], k - 1);
      k' := k' + 1;
    } else {
      k' := 0;
    }
  }

  lemma OthersKeepNoneTwice(a: Tables, b: Tables)
    requires NoneTwice(a.chain, a.rules) && Others(a, b)
    ensures NoneTwice(b.chain, b.rules)
  {
    forall j, k | 0 <= j < k < |b.chain| && !b.chain[j].OtherRule? ensures b.chain[j] != b.chain[k] {
      var j', k' := DeletedFrom(a.chain, b.chain, j, k);
    }
    forall i, j, k | InRange(i) && 0 <= j < k < |b.rules| && Covers(b.rules[j], i) ensures b.rules[k] != AgentRule(i) {
      var j', k' := DeletedFrom(a.rules, b.rules, j, k);
    }
  }

  lemma WellFormedStays(a: Tables, b: Tables)
    requires WellFormed(a.rules) && (Passes(a, b) || Others(a, b))
    ensures WellFormed(b.rules)
  {
    forall k | 0 <= k < |b.rules| ensures !Malformed(b.rules[k]) {
      if Passes(a, b) {
        if k < |a.rules| {
          assert b.rules[..|a.rules|][k] == a.rules[k];
        } else {
          var i :| InRange(i) && b.rules[k] == AgentRule(i) && !Covered(b.rules[..k], i);
          AgentRuleCovers(i, i);
        }
      } else {
        var k' := DeletedAt(a.rules, b.rules, k);
      }
    }
  }

  /** The tables over time: passes, with deletions by others in between. */
  ghost predicate IsHistory(history: seq<Tables>) {
    && history != []
    && forall n :: 0 <= n < |history| - 1 ==> Passes(history[n], history[n + 1]) || Others(history[n], history[n + 1])
  }

  /** However often others delete in between: the rules stay readable, each pass ends with everything in
      place, and if nothing was there twice at the start, nothing ever is. */
  lemma {:induction false} EveryPassCompletes(history: seq<Tables>, n: nat)
    requires IsHistory(history) && n < |history|
    requires WellFormed(history[0].rules)
    ensures WellFormed(history[n].rules)
    ensures NoneTwice(history[0].chain, history[0].rules) ==> NoneTwice(history[n].chain, history[n].rules)
    ensures n > 0 && Passes(history[n - 1], history[n]) ==> Complete(history[n].chain, history[n].rules)
  {
    if n > 0 {
      EveryPassCompletes(history, n - 1);
      WellFormedStays(history[n - 1], history[n]);
      if NoneTwice(history[n - 1].chain, history[n - 1].rules) {
        if Passes(history[n - 1], history[n]) {
          PassKeepsNoneTwice(history[n - 1], history[n]);
        } else {
          OthersKeepNoneTwice(history[n - 1], history[n]);
        }
      }
    }
  }

  /** What a pass adds first is something that was missing. */
  lemma AddedWasMissing(before: seq<ChainRule>, after: seq<ChainRule>)
    requires Completed(before, after)
    ensures after == before
            || exists rule :: rule !in before && (rule == RestoreMark || (rule.SetMark? && InRange(rule.i)))
  {
    if |after| > |before| {
      assert after[..|before|] == before && after[|before|] !in before;
    }
  }

  lemma AddedRuleWasMissing(before: seq<IpRule>, after: seq<IpRule>)
    requires RulesCompleted(before, after)
    ensures after == before || exists i: bv32 :: InRange(i) && !Covered(before, i)
  {
    if |after| > |before| {
      var i :| InRange(i) && after[|before|] == AgentRule(i) && !Covered(after[..|before|], i);
      assert after[..|before|] == before;
    }
  }

  /** A pass over tables that are complete adds nothing. */
  lemma SecondPassIsIdle(a: Tables, b: Tables)
    requires Complete(a.chain, a.rules) && Passes(a, b)
    ensures b == a
  {
    AddedWasMissing(a.chain, b.chain);
    AddedRuleWasMissing(a.rules, b.rules);
  }

  // ---- Marks ----

  function SetXmark(mark: bv32, value: bv32, mask: bv32): bv32 {
    (mark & !mask) ^ value
  }

  function Restore(nfmark: bv32, ctmark: bv32, nfmask: bv32, ctmask: bv32): bv32 {
    (nfmark & !nfmask) ^ (ctmark & ctmask)
  }

  /** Setting the mark of eth{i} on a connection, and restoring it on a packet, keep the upper 28 bits of
      both, whatever they are, and the packet matches exactly the rule for i. */
  lemma MarkRoundTrip(nfmark: bv32, ctmark: bv32, i: bv32, j: bv32)
    requires InRange(i) && InRange(j)
    ensures var ct := SetXmark(ctmark, i, FW_MASK);
            var nf := Restore(nfmark, ct, FW_MASK, FW_MASK);
            && ct & !FW_MASK == ctmark & !FW_MASK && nf & !FW_MASK == nfmark & !FW_MASK
            && (nf & FW_MASK == j <==> i == j)
  {
  }

  // ---- Routing ----

  datatype Interface = Pod | Eth(i: bv32)

  datatype Marks = Marks(packet: bv32, connection: bv32)

  /** What one rule of the chain does to a unicast packet from an interface. */
  function Effect(rule: ChainRule, from: Interface, m: Marks): Marks {
    match rule
    case RestoreMark => if from.Pod? then m.(packet := Restore(m.packet, m.connection, FW_MASK, FW_MASK)) else m
    case SetMark(i) => if from == Eth(i) then m.(connection := SetXmark(m.connection, i, FW_MASK)) else m
    case OtherRule(_) => m
  }

  function Traverse(chain: seq<ChainRule>, from: Interface, m: Marks): Marks {
    if chain == [] then m else Traverse(chain[1..], from, Effect(chain[0], from, m))
  }

  /** The rules with the agent's mask are the agent's own; there may be any others. */
  ghost predicate OwnMask(rules: seq<IpRule>) {
    forall k :: 0 <= k < |rules| && HasMask(rules[k]) ==> exists i :: InRange(i) && rules[k] == AgentRule(i)
  }

  /** A rule with a mark and the agent's mask selects the packets whose mark that is, under the mask. */
  predicate Selects(rule: IpRule, mark: bv32) {
    FirstMark(rule.nlas) == [mark & FW_MASK] && HasMask(rule)
  }

  /** The kernel takes the selected rule of the least priority, and of several the one added first. What other
      rules select depends on more than the mark: `selects` says which ones select the packet. */
  function Lookup(rules: seq<IpRule>, selects: IpRule -> bool): (r: seq<IpRule>)
    ensures |r| <= 1 && (r != [] ==> r[0] in rules && selects(r[0]))
    ensures forall rule :: rule in rules && selects(rule) ==> r != [] && r[0].priority <= rule.priority
  {
    if rules == [] then []
    else
      var rest := Lookup(rules[1..], selects);
      if selects(rules[0]) && (rest == [] || rules[0].priority <= rest[0].priority) then [rules[0]] else rest
  }

  lemma SetTwice(mark: bv32, i: bv32)
    requires InRange(i)
    ensures SetXmark(SetXmark(mark, i, FW_MASK), i, FW_MASK) == SetXmark(mark, i, FW_MASK)
  {
  }

  lemma RestoreTwice(nfmark: bv32, ctmark: bv32)
    ensures Restore(Restore(nfmark, ctmark, FW_MASK, FW_MASK), ctmark, FW_MASK, FW_MASK) ==
              Restore(nfmark, ctmark, FW_MASK, FW_MASK)
  {
  }

  /** In whatever order the rules are, a packet from eth{i} gets the mark i on its connection. */
  lemma {:induction false} TraverseSets(chain: seq<ChainRule>, i: bv32, m: Marks)
    requires InRange(i)
    ensures Traverse(chain, Eth(i), m) == if SetMark(i) in chain
            then m.(connection := SetXmark(m.connection, i, FW_MASK)) else m
  {
    hide SetXmark;
    if chain != [] {
      TraverseSets(chain[1..], i, Effect(chain[0], Eth(i), m));
      SetTwice(m.connection, i);
      assert SetMark(i) in chain <==> chain[0] == SetMark(i) || SetMark(i) in chain[1..];
    }
  }

  /** And a packet from a pod gets the mark of its connection. */
  lemma {:induction false} TraverseRestores(chain: seq<ChainRule>, m: Marks)
    ensures Traverse(chain, Pod, m)
              == if RestoreMark in chain then m.(packet := Restore(m.packet, m.connection, FW_MASK, FW_MASK)) else m
  {
    hide Restore;
    if chain != [] {
      TraverseRestores(chain[1..], Effect(chain[0], Pod, m));
      RestoreTwice(m.packet, m.connection);
      assert RestoreMark in chain <==> chain[0] == RestoreMark || RestoreMark in chain[1..];
    }
  }

  /** The agent's rule decides unless another rule comes before it. */
  lemma LookupFinds(rules: seq<IpRule>, selects: IpRule -> bool, mark: bv32, i: bv32)
    requires OwnMask(rules) && InRange(i) && Covered(rules, i) && mark & FW_MASK == i
    requires forall rule :: rule in rules && HasMask(rule) ==> (selects(rule) <==> Selects(rule, mark))
    ensures (forall rule :: rule in rules && !HasMask(rule) && selects(rule) ==> rule.priority > 200) ==>
              Lookup(rules, selects) == [AgentRule(i)]
    ensures forall rule :: rule in rules && !HasMask(rule) && selects(rule) && rule.priority < 200 ==>
              Lookup(rules, selects) != [] && !HasMask(Lookup(rules, selects)[0])
  {
    var k :| 0 <= k < |rules| && Covers(rules[k], i);
    var j :| InRange(j) && rules[k] == AgentRule(j);
    AgentRuleCovers(j, i);
    assert rules[k] in rules && Selects(rules[k], mark);
    var r := Lookup(rules, selects);
    if HasMask(r[0]) {
      var l :| 0 <= l < |rules| && rules[l] == r[0];
      var m :| InRange(m) && rules[l] == AgentRule(m);
      AgentRuleCovers(m, i);
    }
  }

  /** The answer's mark is i, in its low four bits, and nothing else of the marks has changed. */
  lemma AnswersCarryTheMark(chain: seq<ChainRule>, rules: seq<IpRule>, i: bv32, request: Marks, nfmark: bv32)
    requires Complete(chain, rules) && InRange(i)
    ensures var arrived := Traverse(chain, Eth(i), request);
            var answer := Traverse(chain, Pod, Marks(nfmark, arrived.connection));
            && answer.packet & FW_MASK == i
            && arrived.packet == request.packet && answer.connection == arrived.connection
            && arrived.connection & !FW_MASK == request.connection & !FW_MASK
            && answer.packet & !FW_MASK == nfmark & !FW_MASK
  {
    hide Traverse, Covered;
    TraverseSets(chain, i, request);
    TraverseRestores(chain, Marks(nfmark, Traverse(chain, Eth(i), request).connection));
    MarkRoundTrip(nfmark, request.connection, i, i);
  }

  /** Routing: once a pass has completed tables in which the marks are the agent's, a connection that came in on
      eth{i} is answered through table 10 + i, whatever marks the packets had, unless one of the rules that come
      before priority 200 takes the answer; rules that come after it, like the main table's, never do. The upper
      28 bits of the marks are kept. */
  lemma AnswersLeaveWhereTheyCameIn(chain: seq<ChainRule>, rules: seq<IpRule>, i: bv32, request: Marks, nfmark: bv32,
                                    selects: IpRule -> bool)
    requires OwnMask(rules) && Complete(chain, rules) && InRange(i)
    requires var answer := Traverse(chain, Pod, Marks(nfmark, Traverse(chain, Eth(i), request).connection));
             forall rule :: rule in rules && HasMask(rule) ==> (selects(rule) <==> Selects(rule, answer.packet))
    ensures (forall rule :: rule in rules && !HasMask(rule) && selects(rule) ==> rule.priority > 200) ==>
              |Lookup(rules, selects)| == 1 && Lookup(rules, selects)[0].table == 10 + i
    ensures forall rule :: rule in rules && !HasMask(rule) && selects(rule) && rule.priority < 200 ==>
              Lookup(rules, selects) != [] && !HasMask(Lookup(rules, selects)[0])
    ensures var arrived := Traverse(chain, Eth(i), request);
            var answer := Traverse(chain, Pod, Marks(nfmark, arrived.connection));
            && arrived.packet == request.packet && answer.connection == arrived.connection
            && arrived.connection & !FW_MASK == request.connection & !FW_MASK
            && answer.packet & !FW_MASK == nfmark & !FW_MASK
  {
    hide Traverse, Lookup, Selects, Covered, OwnMask;
    AnswersCarryTheMark(chain, rules, i, request, nfmark);
    var answer := Traverse(chain, Pod, Marks(nfmark, Traverse(chain, Eth(i), request).connection));
    LookupFinds(rules, selects, answer.packet, i);
  }
}
