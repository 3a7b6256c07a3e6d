/**
 Removing the legacy finalizer from pods with a JSON patch that first tests and then removes one position,
 as sections 4.2, 4.6 and 5 of RFC 6902 define it.
 */
module Finalizers {
  import opened Base

  const LEGACY_POD_FINALIZER_NAME := "eip.aws.materialize.com/disassociate"
  const FINALIZERS := "/metadata/finalizers/"

  datatype Operation = Test(path: string, value: string) | Remove(path: string)

  // ---- Paths ----

  function Digit(n: nat): char
    requires n < 10
  {
    '0' + n as char
  }

  function Decimal(n: nat): (r: string)
    ensures r != ""
  {
    if n < 10 then [Digit(n)] else Decimal(n / 10) + [Digit(n % 10)]
  }

  function FinalizerPath(position: nat): string {
    FINALIZERS + Decimal(position)
  }

  /** The number a text of digits stands for; an array index has no leading zero. */
  function Number(s: string): Option<nat> {
    if s == "" then None
    else if !('0' <= s[|s| - 1] <= '9') then None
    else if |s| == 1 then Some((s[0] - '0') as nat)
    else
      var rest := Number(s[..|s| - 1]);
      if rest.None? || s[0] == '0' then None
      else Some(10 * rest.value + (s[|s| - 1] - '0') as nat)
  }

  /** The position in the list of finalizers that a path points to. */
  function Position(path: string): Option<nat> {
    if |path| > |FINALIZERS| && path[..|FINALIZERS|] == FINALIZERS then Number(path[|FINALIZERS|..]) else None
  }

  lemma {:induction false} DecimalReads(n: nat)
    ensures Number(Decimal(n)) == Some(n) && (Decimal(n)[0] == '0' <==> n == 0)
  {
    if n >= 10 {
      DecimalReads(n / 10);
      var s := Decimal(n);
      assert s[..|s| - 1] == Decimal(n / 10) && s[0] == Decimal(n / 10)[0];
    }
  }

  /** The path made for a position points to that position. */
  lemma PathPointsBack(position: nat)
    ensures Position(FinalizerPath(position)) == Some(position)
  {
    DecimalReads(position);
    assert FinalizerPath(position)[|FINALIZERS|..] == Decimal(position);
    assert FinalizerPath(position)[..|FINALIZERS|] == FINALIZERS;
  }

  // ---- Patches ----

  function Drop(list: seq<string>, i: nat): seq<string>
    requires i < |list|
  {
    list[..i] + list[i + 1..]
  }

  /** One operation on the list; a test that does not hold and a position that is not there are errors. */
  function Apply(list: seq<string>, op: Operation): Option<seq<string>> {
    var i := Position(op.path);
    if i.None? || i.value >= |list| then None
    else if op.Remove? then Some(Drop(list, i.value))
    else if list[i.value] == op.value then Some(list) else None
  }

  function ApplyAll(list: seq<string>, patch: seq<Operation>): Option<seq<string>> {
    if patch == [] then Some(list)
    else
      var next := Apply(list, patch[0]);
      if next.None? then None else ApplyAll(next.value, patch[1..])
  }

  /** A patch succeeds as a whole or leaves the list as it is. */
  function Patched(list: seq<string>, patch: seq<Operation>): seq<string> {
    var r := ApplyAll(list, patch);
    if r.Some? then r.value else list
  }

  function FirstPosition(list: seq<string>, name: string): (r: Option<nat>)
    ensures r.Some? ==> r.value < |list| && list[r.value] == name && name !in list[..r.value]
    ensures r.None? ==> name !in list
  {
    if list == [] then None
    else if list[0] == name then Some(0)
    else
      var rest := FirstPosition(list[1..], name);
      if rest.None? then None
      else
        assert list[..rest.value + 1] == [list[0]] + list[1..][..rest.value];
        Some(rest.value + 1)
  }

  function RemovalPatch(position: nat): seq<Operation> {
    [Test(FinalizerPath(position), LEGACY_POD_FINALIZER_NAME), Remove(FinalizerPath(position))]
  }

  /** Whatever happened to the list since the position was read, the patch succeeds exactly if the legacy name
      is at that position now. Then one occurrence of it is gone and the rest is in order; otherwise nothing
      has changed. */
  lemma RemovalIsSafe(now: seq<string>, position: nat)
    ensures ApplyAll(now, RemovalPatch(position)).Some? <==>
              position < |now| && now[position] == LEGACY_POD_FINALIZER_NAME
    ensures var r := Patched(now, RemovalPatch(position));
            if ApplyAll(now, RemovalPatch(position)).Some?
            then |r| == |now| - 1 && position <= |r|
                && now == r[..position] + [LEGACY_POD_FINALIZER_NAME] + r[position..]
                 && multiset(r) == multiset(now) - multiset{LEGACY_POD_FINALIZER_NAME}
            else r == now
  {
    PathPointsBack(position);
    var patch := RemovalPatch(position);
    assert patch[1..][1..] == [];
    if position < |now| && now[position] == LEGACY_POD_FINALIZER_NAME {
      assert Apply(now, patch[0]) == Some(now) && Apply(now, patch[1..][0]) == Some(Drop(now, position));
      assert ApplyAll(Drop(now, position), patch[1..][1..]) == Some(Drop(now, position));
      assert now == now[..position] + [now[position]] + now[position + 1..];
      assert multiset(now) == multiset(now[..position] + [now[position]] + now[position + 1..]);
    }
  }

  // ---- The loop ----

  /** The listed pods that have the legacy finalizer, with their lists as listed. */
  function Legacy(listed: seq<(string, seq<string>)>): (r: seq<(string, seq<string>)>)
    ensures forall k :: 0 <= k < |r| ==> LEGACY_POD_FINALIZER_NAME in r[k].1
  {
    if listed == [] then []
    else
      var last := listed[|listed| - 1];
      if LEGACY_POD_FINALIZER_NAME in last.1 then Legacy(listed[..|listed| - 1]) + [last]
         else Legacy(listed[..|listed| - 1])
  }

  /** What the finalizers of all pods were just before and just after a write. */
  datatype Write = Write(before: map<string, seq<string>>, after: map<string, seq<string>>)

  /** The legacy name is still at the position it was listed at. */
  predicate StillThere(now: map<string, seq<string>>, pod: (string, seq<string>)) {
    var i := FirstPosition(pod.1, LEGACY_POD_FINALIZER_NAME);
    i.Some? && pod.0 in now && i.value < |now[pod.0]| && now[pod.0][i.value] == LEGACY_POD_FINALIZER_NAME
  }

  /** The write drops that one entry of that pod, and nothing else. */
  predicate IsRemoval(w: Write, pod: (string, seq<string>)) {
    && StillThere(w.before, pod)
    && w.after == w.before[pod.0 := Drop(w.before[pod.0], FirstPosition(pod.1, LEGACY_POD_FINALIZER_NAME).value)]
  }

  /** It drops an entry of a listed pod. */
  predicate IsRemovalFor(w: Write, listed: seq<(string, seq<string>)>) {
    exists i :: 0 <= i < |listed| && IsRemoval(w, listed[i])
  }

  class Pods {
    var finalizers: map<string, seq<string>>
    const reliable: bool

    constructor (finalizers: map<string, seq<string>>, reliable: bool)
      ensures this.finalizers == finalizers && this.reliable == reliable
    {
      this.finalizers := finalizers;
      this.reliable := reliable;
    }

    /** Others may change any list at any time, and pods may come and go. */
    method OthersAct()
      modifies this
    {
      finalizers := *;
    }

    method PatchFinalizers(pod: string, patch: seq<Operation>) returns (r: Result<()>)
      modifies this
      ensures r.Ok? ==> pod in old(finalizers) && ApplyAll(old(finalizers)[pod], patch).Some?
                          && finalizers == old(finalizers)[pod := ApplyAll(old(finalizers)[pod], patch).value]
      ensures r.Err? ==> finalizers == old(finalizers)
      ensures r.Err? && reliable ==> pod !in finalizers || ApplyAll(finalizers[pod], patch).None?
    {
      var fails: bool := *;
      if !reliable && fails {
        return Err(CallFailed);
      }
      if pod !in finalizers {
        return Err(NotFound);
      }
      var changed := ApplyAll(finalizers[pod], patch);
      if changed.None? {
        return Err(Conflict);
      }
      finalizers := finalizers[pod := changed.value];
      return Ok(());
    }

    /** One pod after the other, while others go on changing the lists. Every write drops the legacy name of a
        listed pod at the position it was listed at, and changes nothing else. On success each of them has
        been written; when no call fails it stops only at a pod whose list has changed at that position. */
    method RemoveLegacyFinalizers(listed: seq<(string, seq<string>)>) returns (r: Result<()>, ghost writes: seq<Write>)
      modifies this
      ensures |writes| <= |Legacy(listed)| && forall k :: 0 <= k < |writes| ==> IsRemoval(writes[k], Legacy(listed)[k])
      ensures r.Ok? ==> |writes| == |Legacy(listed)|
      ensures forall k :: 0 <= k < |writes| ==> IsRemovalFor(writes[k], listed)
      ensures r.Ok? ==> forall i :: 0 <= i < |listed| && LEGACY_POD_FINALIZER_NAME in listed[i].1 ==>
                exists k :: 0 <= k < |writes| && IsRemoval(writes[k], listed[i])
      ensures r.Err? ==> |writes| < |Legacy(listed)|
      ensures r.Err? && reliable ==> !StillThere(finalizers, Legacy(listed)[|writes|])
    {
      writes := [];
      for i := 0 to |listed|
        invariant |writes| == |Legacy(listed[..i])| <= |Legacy(listed)|
        invariant forall k :: 0 <= k < |writes| ==> IsRemoval(writes[k], Legacy(listed)[k])
      {
        hide Legacy, IsRemoval, StillThere;
        LegacyNext(listed, i);
        if LEGACY_POD_FINALIZER_NAME in listed[i].1 {
          ghost var write;
          r, write := RemoveLegacy(listed[i]);
          if r.Err? {
            WrittenIs(listed, writes);
            return r, writes;
          }
          writes := writes + [write];
        }
      }
      assert listed[..|listed|] == listed;
      WrittenIs(listed, writes);
      return Ok(()), writes;
    }

    method RemoveLegacy(pod: (string, seq<string>)) returns (r: Result<()>, ghost write: Write)
      requires LEGACY_POD_FINALIZER_NAME in pod.1
      modifies this
      ensures r.Ok? ==> IsRemoval(write, pod)
      ensures r.Err? && reliable ==> !StillThere(finalizers, pod)
    {
      hide ApplyAll, RemovalPatch, Drop;
      var position := FirstPosition(pod.1, LEGACY_POD_FINALIZER_NAME).value;
      OthersAct();
      ghost var before := finalizers;
      if pod.0 in finalizers {
        RemovalIsSafe(finalizers[pod.0], position);
        if StillThere(finalizers, pod) {
          RemovalDrops(finalizers[pod.0], position);
        }
      }
      r := PatchFinalizers(pod.0, RemovalPatch(position));
      write := Write(before, finalizers);
    }
  }

  lemma LegacyNext(listed: seq<(string, seq<string>)>, i: nat)
    requires i < |listed|
    ensures |Legacy(listed[..i])| <= |Legacy(listed[..i + 1])| <= |Legacy(listed)|
    ensures if LEGACY_POD_FINALIZER_NAME in listed[i].1
            then |Legacy(listed[..i + 1])| == |Legacy(listed[..i])| + 1
                && Legacy(listed)[|Legacy(listed[..i])|] == listed[i]
            else |Legacy(listed[..i + 1])| == |Legacy(listed[..i])|
  {
    assert listed[..i + 1][..i] == listed[..i];
    LegacyGrows(listed, i + 1);
  }

  /** They are exactly those of the listed pods whose lists have the name. */
  lemma {:induction false} LegacyIs(listed: seq<(string, seq<string>)>)
    ensures forall pod :: pod in Legacy(listed) <==> pod in listed && LEGACY_POD_FINALIZER_NAME in pod.1
  {
    if listed != [] {
      LegacyIs(listed[..|listed| - 1]);
      assert listed == listed[..|listed| - 1] + [listed[|listed| - 1]];
    }
  }

  /** Writes for the pods found, one after the other, are writes for the listed pods that have the name. */
  lemma WrittenIs(listed: seq<(string, seq<string>)>, writes: seq<Write>)
    requires |writes| <= |Legacy(listed)| && forall k :: 0 <= k < |writes| ==> IsRemoval(writes[k], Legacy(listed)[k])
    ensures forall k :: 0 <= k < |writes| ==> IsRemovalFor(writes[k], listed)
    ensures |writes| == |Legacy(listed)| ==>
              forall i :: 0 <= i < |listed| && LEGACY_POD_FINALIZER_NAME in listed[i].1 ==>
                exists k :: 0 <= k < |writes| && IsRemoval(writes[k], listed[i])
  {
    hide Legacy, IsRemoval;
    LegacyIs(listed);
    forall k | 0 <= k < |writes| ensures IsRemovalFor(writes[k], listed) {
      var pod := Legacy(listed)[k];
      assert pod in Legacy(listed);
      var i :| 0 <= i < |listed| && listed[i] == pod;
      assert IsRemoval(writes[k], listed[i]);
    }
    if |writes| == |Legacy(listed)| {
      forall i | 0 <= i < |listed| && LEGACY_POD_FINALIZER_NAME in listed[i].1
        ensures exists k :: 0 <= k < |writes| && IsRemoval(writes[k], listed[i])
      {
        var pod := listed[i];
        assert pod in Legacy(listed);
        var k :| 0 <= k < |Legacy(listed)| && Legacy(listed)[k] == pod;
        assert IsRemoval(writes[k], pod);
      }
    }
  }

  /** The pods found first are found first. */
  lemma {:induction false} LegacyGrows(listed: seq<(string, seq<string>)>, n: nat)
    requires n <= |listed|
    ensures |Legacy(listed[..n])| <= |Legacy(listed)|
    ensures forall k :: 0 <= k < |Legacy(listed[..n])| ==> Legacy(listed[..n])[k] == Legacy(listed)[k]
  {
    if n == |listed| {
      assert listed[..n] == listed;
    } else {
      LegacyGrows(listed[..|listed| - 1], n);
      assert listed[..|listed| - 1][..n] == listed[..n];
    }
  }

  lemma RemovalDrops(now: seq<string>, position: nat)
    requires position < |now| && now[position] == LEGACY_POD_FINALIZER_NAME
    ensures ApplyAll(now, RemovalPatch(position)) == Some(Drop(now, position))
  {
    hide ApplyAll, RemovalPatch;
    RemovalIsSafe(now, position);
    var r := Patched(now, RemovalPatch(position));
    assert Drop(now, position) == r[..position] + r[position..];
    assert r == r[..position] + r[position..];
  }
}
