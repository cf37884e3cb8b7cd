/** The quantities dictionary: grams per label, keyed by label, in insertion order. */
module Quantities {
  import opened Types

  /** A Python dict from label to grams: its keys in insertion order, and the mapping. */
  datatype Dict = Dict(order: seq<string>, grams: map<string, int>)

  predicate Distinct(s: seq<string>)
  {
    forall i, j :: 0 <= i < j < |s| ==> s[i] != s[j]
  }

  /** A well-formed dict: each key listed once, and exactly the keys of the mapping. */
  ghost predicate Valid(d: Dict)
  {
    Distinct(d.order) && forall k :: k in d.grams <==> k in d.order
  }

  predicate InRange(g: int)
  {
    MinGrams <= g <= MaxGrams
  }

  /** `d[k] = v`: an existing key keeps its place and gets the new value,
      a new key goes to the end. */
  function Put(d: Dict, k: string, v: int): (r: Dict)
    ensures Valid(d) ==> Valid(r)
    ensures k in r.grams && r.grams[k] == v
    ensures forall k' :: k' in d.grams && k' != k ==> k' in r.grams && r.grams[k'] == d.grams[k']
    ensures forall k' :: k' in r.grams ==> k' == k || k' in d.grams
    ensures k in d.grams ==> r.order == d.order
    ensures k !in d.grams ==> r.order == d.order + [k]
  {
    if k in d.grams then Dict(d.order, d.grams[k := v]) else Dict(d.order + [k], d.grams[k := v])
  }

  /** Position of the first occurrence of k in s. */
  function FirstIndex(s: seq<string>, k: string): (i: nat)
    requires k in s
    ensures i < |s| && s[i] == k
    ensures forall j :: 0 <= j < i ==> s[j] != k
  {
    if s[0] == k then 0 else 1 + FirstIndex(s[1..], k)
  }

  /** Position of the last occurrence of k in s. */
  function LastIndex(s: seq<string>, k: string): (i: nat)
    requires k in s
    ensures i < |s| && s[i] == k
    ensures forall j :: i < j < |s| ==> s[j] != k
  {
    if s[|s| - 1] == k then |s| - 1 else LastIndex(s[..|s| - 1], k)
  }

  /** The dict `quantities` after the loop has stored grams[i] under labels[i] for each i. */
  function QuantitiesOf(labels: seq<string>, grams: seq<int>): (q: Dict)
    requires |grams| == |labels|
    ensures Valid(q)
  {
    if labels == [] then Dict([], map[])
    else
      var n := |labels| - 1;
      Put(QuantitiesOf(labels[..n], grams[..n]), labels[n], grams[n])
  }

  /** The dict is well formed and its keys are exactly the distinct labels. */
  lemma {:induction false} QuantitiesKeys(labels: seq<string>, grams: seq<int>)
    requires |grams| == |labels|
    ensures Valid(QuantitiesOf(labels, grams))
    ensures forall k :: k in QuantitiesOf(labels, grams).grams <==> k in labels
  {
    if labels != [] {
      var n := |labels| - 1;
      QuantitiesKeys(labels[..n], grams[..n]);
      assert labels == labels[..n] + [labels[n]];
    }
  }

  /** Last write wins: a label's grams are those entered at its last occurrence. */
  lemma {:induction false} QuantitiesLastWriteWins(labels: seq<string>, grams: seq<int>, k: string)
    requires |grams| == |labels|
    requires k in labels
    ensures k in QuantitiesOf(labels, grams).grams
    ensures QuantitiesOf(labels, grams).grams[k] == grams[LastIndex(labels, k)]
  {
    var n := |labels| - 1;
    if labels[n] != k {
      assert k in labels[..n] by {
        var i :| 0 <= i < |labels| && labels[i] == k;
        assert i < n && labels[..n][i] == k;
      }
      QuantitiesLastWriteWins(labels[..n], grams[..n], k);
    }
  }

  /** The keys are ordered by the first occurrence of each label. */
  lemma {:induction false} QuantitiesOrder(labels: seq<string>, grams: seq<int>)
    requires |grams| == |labels|
    ensures forall k :: k in QuantitiesOf(labels, grams).order ==> k in labels
    ensures forall i, j :: 0 <= i < j < |QuantitiesOf(labels, grams).order| ==>
      FirstIndex(labels, QuantitiesOf(labels, grams).order[i]) < FirstIndex(labels, QuantitiesOf(labels, grams).order[j])
  {
    if labels != [] {
      var n := |labels| - 1;
      var pre := labels[..n];
      var q' := QuantitiesOf(pre, grams[..n]);
      QuantitiesOrder(pre, grams[..n]);
      QuantitiesKeys(pre, grams[..n]);
      assert QuantitiesOf(labels, grams) == Put(q', labels[n], grams[n]);
      TakeLast(labels);
      OrderStep(pre, labels[n], q'.order, QuantitiesOf(labels, grams).order);
    }
  }

  /** Keeping a first-occurrence order of `pre` and adding `l` only when it is
      new gives a first-occurrence order of `pre + [l]`. */
  lemma OrderStep(pre: seq<string>, l: string, o': seq<string>, o: seq<string>)
    requires forall i :: 0 <= i < |o'| ==> o'[i] in pre
    requires forall i, j :: 0 <= i < j < |o'| ==> FirstIndex(pre, o'[i]) < FirstIndex(pre, o'[j])
    requires o == o' || (o == o' + [l] && l !in pre)
    ensures forall i :: 0 <= i < |o| ==> o[i] in pre + [l]
    ensures forall i, j :: 0 <= i < j < |o| ==> FirstIndex(pre + [l], o[i]) < FirstIndex(pre + [l], o[j])
  {
    var labels := pre + [l];
    assert labels[..|pre|] == pre;
    forall i | 0 <= i < |o|
      ensures o[i] in labels
    {
      if i < |o'| {
        var t :| 0 <= t < |pre| && pre[t] == o'[i];
        assert labels[t] == o[i];
      } else {
        assert labels[|pre|] == o[i];
      }
    }
    forall i, j | 0 <= i < j < |o|
      ensures FirstIndex(labels, o[i]) < FirstIndex(labels, o[j])
    {
      assert o[i] == o'[i];
      FirstIndexPrefix(labels, |pre|, o[i]);
      if j < |o'| {
        assert o[j] == o'[j];
        FirstIndexPrefix(labels, |pre|, o[j]);
      } else {
        assert o[j] == l;
        assert labels[|pre|] == l;
        assert forall t :: 0 <= t < |pre| ==> labels[t] != l;
      }
    }
  }

  /** A non-empty sequence is its prefix without the last element, plus that element. */
  lemma TakeLast(s: seq<string>)
    requires s != []
    ensures s[..|s| - 1] + [s[|s| - 1]] == s
  {
  }

  lemma FirstIndexPrefix(s: seq<string>, n: int, k: string)
    requires 0 <= n <= |s|
    requires k in s[..n]
    ensures FirstIndex(s, k) == FirstIndex(s[..n], k)
  {
  }

  /** Every stored quantity is one the widgets returned, so it stays in [1, 2000]. */
  lemma {:induction false} QuantitiesInRange(labels: seq<string>, grams: seq<int>)
    requires |grams| == |labels|
    requires forall i :: 0 <= i < |grams| ==> InRange(grams[i])
    ensures forall k :: k in QuantitiesOf(labels, grams).grams ==> InRange(QuantitiesOf(labels, grams).grams[k])
  {
    QuantitiesKeys(labels, grams);
    forall k | k in QuantitiesOf(labels, grams).grams
      ensures InRange(QuantitiesOf(labels, grams).grams[k])
    {
      QuantitiesLastWriteWins(labels, grams, k);
    }
  }

  /** Without repeated labels the dict lists every label, in crop order, with its own grams. */
  lemma QuantitiesOfDistinct(labels: seq<string>, grams: seq<int>)
    requires |grams| == |labels|
    requires Distinct(labels)
    ensures QuantitiesOf(labels, grams).order == labels
    ensures forall i :: 0 <= i < |labels| ==>
      (labels[i] in QuantitiesOf(labels, grams).grams && QuantitiesOf(labels, grams).grams[labels[i]] == grams[i])
  {
    var q := QuantitiesOf(labels, grams);
    DistinctOrder(labels, grams);
    forall i | 0 <= i < |labels|
      ensures labels[i] in q.grams && q.grams[labels[i]] == grams[i]
    {
      QuantitiesLastWriteWins(labels, grams, labels[i]);
      assert LastIndex(labels, labels[i]) == i;
    }
  }

  lemma {:induction false} DistinctOrder(labels: seq<string>, grams: seq<int>)
    requires |grams| == |labels|
    requires Distinct(labels)
    ensures QuantitiesOf(labels, grams).order == labels
  {
    if labels != [] {
      var n := |labels| - 1;
      var pre, l := labels[..n], labels[n];
      var q' := QuantitiesOf(pre, grams[..n]);
      DistinctOrder(pre, grams[..n]);
      assert l !in q'.order;
      assert Valid(q');
      assert l !in q'.grams;
      assert QuantitiesOf(labels, grams) == Put(q', l, grams[n]);
      assert Put(q', l, grams[n]).order == pre + [l];
      TakeLast(labels);
    }
  }

  /** The dict after one more label, as the loop stores it. */
  lemma QuantitiesStep(labels: seq<string>, grams: seq<int>, i: int)
    requires |grams| == |labels| && 0 <= i < |labels|
    ensures QuantitiesOf(labels[..i + 1], grams[..i + 1]) == Put(QuantitiesOf(labels[..i], grams[..i]), labels[i], grams[i])
  {
    assert labels[..i + 1][..i] == labels[..i];
    assert grams[..i + 1][..i] == grams[..i];
  }

  /** The quantity loop of the script: one widget value per confirmed label. */
  method CollectQuantities(finalLabels: seq<string>, grams: seq<int>) returns (quantities: Dict)
    requires |grams| == |finalLabels|
    ensures quantities == QuantitiesOf(finalLabels, grams)
  {
    quantities := Dict([], map[]);
    for i := 0 to |finalLabels|
      invariant quantities == QuantitiesOf(finalLabels[..i], grams[..i])
    {
      QuantitiesStep(finalLabels, grams, i);
      quantities := Put(quantities, finalLabels[i], grams[i]);
    }
    assert finalLabels[..|finalLabels|] == finalLabels;
    assert grams[..|grams|] == grams;
  }
}
