/**
 Who matches an Eip is decided twice: by the operator, over labels and names it has read, and by the API
 server, over a selector that the operator prints. The two always agree.
 */
module Selectors {
  import opened Base
  import Kube

  // ---- The operator's side ----

  /** All of the selector's labels are among the node's, with the same values. */
  method MatchesNode(selector: Selector, labels: map<string, string>) returns (r: bool)
    ensures r <==> selector.NodeSelector? && LabelsMatch(selector.labels, labels)
  {
    match selector {
      case PodSelector(_) => return false;
      case NodeSelector(wanted) =>
        var rest := wanted.Keys;
        while rest != {}
          invariant rest <= wanted.Keys
          invariant forall k :: k in wanted && k !in rest ==> k in labels && labels[k] == wanted[k]
          decreases rest
        {
          var k :| k in rest;
          if k !in labels {
            return false;
          }
          if labels[k] != wanted[k] {
            return false;
          }
          rest := rest - {k};
        }
        return true;
    }
  }

  // ---- Printing ----

  datatype ListParams = ListParams(fieldSelector: Option<string>, labelSelector: Option<string>)

  /** The keys of the map, each once: the order in which its entries are printed. */
  predicate Enumerates(keys: seq<string>, labels: map<string, string>) {
    && (forall k :: k in keys ==> k in labels)
    && (forall k :: k in labels ==> k in keys)
    && (forall i, j :: 0 <= i < j < |keys| ==> keys[i] != keys[j])
  }

  function Parts(labels: map<string, string>, keys: seq<string>): (r: seq<string>)
    requires forall k :: k in keys ==> k in labels
    ensures |r| == |keys| && forall i :: 0 <= i < |r| ==> r[i] == keys[i] + "=" + labels[keys[i]]
  {
    seq(|keys|, i requires 0 <= i < |keys| => keys[i] + "=" + labels[keys[i]])
  }

  /** The entries of the map in the order of the keys. */
  function Entries(labels: map<string, string>, keys: seq<string>): (r: seq<(string, string)>)
    requires forall k :: k in keys ==> k in labels
    ensures |r| == |keys| && forall i :: 0 <= i < |r| ==> r[i] == (keys[i], labels[keys[i]])
  {
    seq(|keys|, i requires 0 <= i < |keys| => (keys[i], labels[keys[i]]))
  }

  function Join(parts: seq<string>): string {
    if parts == [] then ""
    else if |parts| == 1 then parts[0]
    else parts[0] + "," + Join(parts[1..])
  }

  function ResourceListParams(e: Eip, keys: seq<string>): ListParams
    requires e.selector.NodeSelector? ==> Enumerates(keys, e.selector.labels)
  {
    match e.selector
    case PodSelector(podName) => ListParams(Some("metadata.name=" + podName), None)
    case NodeSelector(labels) => ListParams(None, Some(Join(Parts(labels, keys))))
  }

  // ---- The API server's side ----

  function SplitOn(s: string, c: char): (r: seq<string>)
    ensures |r| > 0
  {
    if s == "" then [""]
    else
      var rest := SplitOn(s[1..], c);
      if s[0] == c then [""] + rest else [[s[0]] + rest[0]] + rest[1..]
  }

  function ParseRequirement(part: string): Option<(string, string)> {
    var sides := SplitOn(part, '=');
    if |sides| == 2 then Some((sides[0], sides[1])) else None
  }

  function ParseAll(parts: seq<string>): Option<seq<(string, string)>> {
    if parts == [] then Some([])
    else
      var first, rest := ParseRequirement(parts[0]), ParseAll(parts[1..]);
      if first.Some? && rest.Some? then Some([first.value] + rest.value) else None
  }

  /** A selector is a list of requirements; the empty text has none. */
  function Parse(text: string): Option<seq<(string, string)>> {
    if text == "" then Some([]) else ParseAll(SplitOn(text, ','))
  }

  predicate Meets(requirements: seq<(string, string)>, labels: map<string, string>) {
    forall i :: 0 <= i < |requirements| ==>
        requirements[i].0 in labels && labels[requirements[i].0] == requirements[i].1
  }

  /** Does the server list an object of this name and these labels? An unreadable selector is refused. */
  predicate ServerSelects(params: ListParams, name: string, labels: map<string, string>) {
    && (params.fieldSelector.Some? ==>
          Parse(params.fieldSelector.value).Some?
              && Meets(Parse(params.fieldSelector.value).value, map["metadata.name" := name]))
    && (params.labelSelector.Some? ==>
          Parse(params.labelSelector.value).Some? && Meets(Parse(params.labelSelector.value).value, labels))
  }

  // ---- Legal labels ----

  predicate LegalChar(c: char) {
    ('a' <= c <= 'z') || ('A' <= c <= 'Z') || ('0' <= c <= '9') || c == '-' || c == '_' || c == '.' || c == '/'
  }

  predicate LegalText(s: string) {
    forall i :: 0 <= i < |s| ==> LegalChar(s[i])
  }

  predicate LegalLabels(labels: map<string, string>) {
    forall k :: k in labels ==> LegalText(k) && LegalText(labels[k])
  }

  // ---- Agreement ----

  lemma {:induction false} SplitWhole(a: string, c: char)
    requires c !in a
    ensures SplitOn(a, c) == [a]
  {
    if a != "" {
      SplitWhole(a[1..], c);
      assert [a[0]] + a[1..] == a;
    }
  }

  lemma {:induction false} SplitFirst(a: string, c: char, b: string)
    requires c !in a
    ensures SplitOn(a + [c] + b, c) == [a] + SplitOn(b, c)
  {
    var s := a + [c] + b;
    if a == "" {
      assert s[0] == c && s[1..] == b;
    } else {
      assert s[0] == a[0] && s[1..] == a[1..] + [c] + b;
      SplitFirst(a[1..], c, b);
      assert [a[0]] + a[1..] == a;
    }
  }

  lemma {:induction false} SplitJoin(parts: seq<string>)
    requires parts != [] && forall i :: 0 <= i < |parts| ==> ',' !in parts[i]
    ensures SplitOn(Join(parts), ',') == parts
  {
    if |parts| == 1 {
      SplitWhole(parts[0], ',');
      assert [parts[0]] == parts;
    } else {
      SplitJoin(parts[1..]);
      SplitFirst(parts[0], ',', Join(parts[1..]));
      assert parts[0] + "," + Join(parts[1..]) == parts[0] + [','] + Join(parts[1..]);
      assert [parts[0]] + parts[1..] == parts;
    }
  }

  lemma RequirementReads(k: string, v: string)
    requires '=' !in k && '=' !in v
    ensures ParseRequirement(k + "=" + v) == Some((k, v))
  {
    SplitFirst(k, '=', v);
    SplitWhole(v, '=');
    assert k + "=" + v == k + ['='] + v;
  }

  lemma {:induction false} AllRead(labels: map<string, string>, keys: seq<string>)
    requires LegalLabels(labels) && forall k :: k in keys ==> k in labels
    ensures ParseAll(Parts(labels, keys)) == Some(Entries(labels, keys))
  {
    if keys != [] {
      AllRead(labels, keys[1..]);
      assert LegalText(keys[0]) && LegalText(labels[keys[0]]);
      RequirementReads(keys[0], labels[keys[0]]);
      assert Parts(labels, keys)[1..] == Parts(labels, keys[1..]);
      assert Entries(labels, keys) == [Entries(labels, keys)[0]] + Entries(labels, keys[1..]);
    }
  }

  lemma JoinIsEmpty(parts: seq<string>)
    requires forall i :: 0 <= i < |parts| ==> parts[i] != ""
    ensures Join(parts) == "" <==> parts == []
  {
    if |parts| > 1 {
      assert |Join(parts)| == |parts[0]| + 1 + |Join(parts[1..])|;
    }
  }

  /** Round trip: what is printed for legal labels reads back as exactly those labels, the empty map included. */
  lemma PrintedReadsBack(labels: map<string, string>, keys: seq<string>)
    requires LegalLabels(labels) && Enumerates(keys, labels)
    ensures var r := Parse(Join(Parts(labels, keys)));
            && r.Some? && |r.value| == |labels|
            && (forall k, v :: (k, v) in r.value <==> k in labels && labels[k] == v)
  {
    var parts := Parts(labels, keys);
    JoinIsEmpty(parts);
    AllRead(labels, keys);
    if keys != [] {
      SplitJoin(parts);
    }
    var r := Entries(labels, keys);
    assert Parse(Join(parts)) == Some(r);
    forall k, v | k in labels && labels[k] == v ensures (k, v) in r {
      var i :| 0 <= i < |keys| && keys[i] == k;
      assert r[i] == (k, v);
    }
    DistinctCount(keys, labels.Keys);
  }

  lemma {:induction false} DistinctCount<T>(xs: seq<T>, s: set<T>)
    requires forall x :: x in xs <==> x in s
    requires forall i, j :: 0 <= i < j < |xs| ==> xs[i] != xs[j]
    ensures |xs| == |s|
  {
    if xs != [] {
      assert forall x :: x in xs[1..] <==> x in s - {xs[0]};
      DistinctCount(xs[1..], s - {xs[0]});
    }
  }

  /** For labels, the server's answer is the operator's. */
  lemma LabelSelectorAgrees(e: Eip, keys: seq<string>, name: string, labels: map<string, string>)
    requires e.selector.NodeSelector? && LegalLabels(e.selector.labels) && Enumerates(keys, e.selector.labels)
    ensures ServerSelects(ResourceListParams(e, keys), name, labels) <==> e.MatchesNode(labels)
  {
    PrintedReadsBack(e.selector.labels, keys);
    var r := Parse(Join(Parts(e.selector.labels, keys))).value;
    if Meets(r, labels) {
      forall k | k in e.selector.labels ensures k in labels && labels[k] == e.selector.labels[k] {
        var i :| 0 <= i < |r| && r[i] == (k, e.selector.labels[k]);
      }
    }
    if e.MatchesNode(labels) {
      forall i | 0 <= i < |r| ensures r[i].0 in labels && labels[r[i].0] == r[i].1 {
        assert (r[i].0, r[i].1) in r;
      }
    }
  }

  /** And for names. */
  lemma FieldSelectorAgrees(e: Eip, keys: seq<string>, name: string, labels: map<string, string>)
    requires e.selector.PodSelector? && LegalText(e.selector.podName)
    ensures ServerSelects(ResourceListParams(e, keys), name, labels) <==> e.MatchesPod(name)
  {
    var text := "metadata.name=" + e.selector.podName;
    RequirementReads("metadata.name", e.selector.podName);
    assert text == "metadata.name" + "=" + e.selector.podName;
    assert forall i :: 0 <= i < |text| ==> text[i] != ',';
    SplitWhole(text, ',');
    var r := ("metadata.name", e.selector.podName);
    assert ParseAll([text]) == Some([r]) by {
      assert [text][1..] == [] && [r] + [] == [r];
    }
    assert Parse(text) == Some([r]);
    assert [r][0] == r;
  }

  /** So the Eip controller's listing is what the protocol takes it for. */
  lemma ListingIsResources(k: Kube.Store, e: Eip, keys: seq<string>)
    requires match e.selector
             case PodSelector(podName) => LegalText(podName)
             case NodeSelector(labels) => LegalLabels(labels) && Enumerates(keys, labels)
    ensures e.selector.NodeSelector? ==>
              forall n :: n in Kube.Resources(k, e) <==>
                  n in k.nodes && ServerSelects(ResourceListParams(e, keys), n, k.nodes[n].labels)
    ensures e.selector.PodSelector? ==>
              forall n, labels :: Key(e.key.ns, n) in k.pods ==>
                                    (n in Kube.Resources(k, e) <==>
                                       ServerSelects(ResourceListParams(e, keys), n, labels))
  {
    if e.selector.NodeSelector? {
      forall n | n in k.nodes
        ensures n in Kube.Resources(k, e) <==> ServerSelects(ResourceListParams(e, keys), n, k.nodes[n].labels)
      {
        LabelSelectorAgrees(e, keys, n, k.nodes[n].labels);
      }
    } else {
      forall n, labels | Key(e.key.ns, n) in k.pods
        ensures n in Kube.Resources(k, e) <==> ServerSelects(ResourceListParams(e, keys), n, labels)
      {
        FieldSelectorAgrees(e, keys, n, labels);
      }
    }
  }
}
