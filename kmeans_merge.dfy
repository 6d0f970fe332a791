/** The clustering step of the k-means summariser: chunks are grouped by the cluster label
    k-means gives them, and each group becomes one document whose text is the group's
    chunks joined by spaces.

    Embedding the chunks and k-means itself are outside the model: the labels are given
    (one per chunk, from the count of clusters asked for). Cluster labels are small
    non-negative integers, so the groups come out in ascending label order, the order in
    which JavaScript lists integer keys of an object. */
module KMeansMerge {
  import opened Wrappers
  import opened Text

  datatype Doc = Doc(pageContent: string, id: string)

  /** The chunks labelled `l`, in their original order. */
  function Group(chunks: seq<string>, labels: seq<nat>, l: nat): (g: seq<string>)
    requires |labels| == |chunks|
  {
    if chunks == [] then []
    else Group(chunks[..|chunks| - 1], labels[..|labels| - 1], l)
         + (if labels[|labels| - 1] == l then [chunks[|chunks| - 1]] else [])
  }

  /** One more than the largest label (0 for none): every label lies below it. */
  function LabelBound(labels: seq<nat>): (b: nat)
    ensures forall i :: 0 <= i < |labels| ==> labels[i] < b
  {
    if labels == [] then 0
    else
      var b := LabelBound(labels[..|labels| - 1]);
      assert forall i :: 0 <= i < |labels| - 1 ==> labels[..|labels| - 1][i] == labels[i];
      if labels[|labels| - 1] + 1 > b then labels[|labels| - 1] + 1 else b
  }

  /** The members of `keys` below `b`, ascending. */
  function AscendingBelow(keys: set<nat>, b: nat): (r: seq<nat>)
    ensures forall x :: x in r <==> x in keys && x < b
    ensures forall i, j :: 0 <= i < j < |r| ==> r[i] < r[j]
    ensures forall i :: 0 <= i < |r| ==> r[i] < b
  {
    if b == 0 then []
    else
      var init := AscendingBelow(keys, b - 1);
      init + (if b - 1 in keys then [b - 1] else [])
  }

  function LabelSet(labels: seq<nat>): set<nat> {
    set i | 0 <= i < |labels| :: labels[i]
  }

  /** The distinct labels in the order their groups are listed: ascending, each once. */
  function LabelOrder(labels: seq<nat>): (order: seq<nat>)
    ensures forall x :: x in order <==> x in labels
    ensures forall i, j :: 0 <= i < j < |order| ==> order[i] < order[j]
  {
    AscendingBelow(LabelSet(labels), LabelBound(labels))
  }

  function MergedId(idx: nat): string {
    "merged-" + NatToString(idx + 1)
  }

  /** The merged documents: the `idx`-th distinct label's chunks joined by spaces, named
      `merged-{idx+1}`. */
  function MergedDocs(chunks: seq<string>, labels: seq<nat>): (docs: seq<Doc>)
    requires |labels| == |chunks|
    ensures |docs| == |LabelOrder(labels)|
    ensures forall idx :: 0 <= idx < |docs| ==>
      docs[idx] == Doc(Join(Group(chunks, labels, LabelOrder(labels)[idx]), " "), MergedId(idx))
  {
    var order := LabelOrder(labels);
    seq(|order|, idx requires 0 <= idx < |order| => Doc(Join(Group(chunks, labels, order[idx]), " "), MergedId(idx)))
  }

  /** The first pass of `mergeSimilarClusters`: each chunk is appended to its label's
      group, a group being created at its label's first chunk. */
  method BuildClusterMap(chunks: seq<string>, labels: seq<nat>) returns (clusterMap: map<nat, seq<string>>)
    requires |labels| == |chunks|
    ensures clusterMap.Keys == LabelSet(labels)
    ensures forall l :: l in clusterMap ==> clusterMap[l] == Group(chunks, labels, l)
  {
    clusterMap := map[];
    var i := 0;
    while i < |labels|
      invariant 0 <= i <= |labels|
      invariant clusterMap.Keys == LabelSet(labels[..i])
      invariant forall l :: l in clusterMap ==> clusterMap[l] == Group(chunks[..i], labels[..i], l)
    {
      var l := labels[i];
      var group := if l in clusterMap then clusterMap[l] else [];
      GroupStep(chunks, labels, i);
      clusterMap := clusterMap[l := group + [chunks[i]]];
      LabelSetStep(labels, i);
      i := i + 1;
    }
    assert labels[..|labels|] == labels && chunks[..|chunks|] == chunks;
  }

  /** The second pass of `mergeSimilarClusters`: the groups, in key order, become documents
      numbered from 1. */
  method DocsInOrder(clusterMap: map<nat, seq<string>>, keys: seq<nat>) returns (merged: seq<Doc>)
    requires forall k :: k in keys ==> k in clusterMap
    ensures |merged| == |keys|
    ensures forall idx :: 0 <= idx < |keys| ==> merged[idx] == Doc(Join(clusterMap[keys[idx]], " "), MergedId(idx))
  {
    merged := [];
    var idx := 0;
    while idx < |keys|
      invariant 0 <= idx <= |keys|
      invariant |merged| == idx
      invariant forall k :: 0 <= k < idx ==> merged[k] == Doc(Join(clusterMap[keys[k]], " "), MergedId(k))
    {
      merged := merged + [Doc(Join(clusterMap[keys[idx]], " "), MergedId(idx))];
      idx := idx + 1;
    }
  }

  /** `mergeSimilarClusters`: chunks grouped by label, groups listed in key order, each
      group one document. The similarity threshold is not used: the result depends on the
      chunks and labels alone. */
  method MergeSimilarClusters(chunks: seq<string>, labels: seq<nat>, similarityThreshold: real)
    returns (merged: seq<Doc>)
    requires |labels| == |chunks|
    ensures merged == MergedDocs(chunks, labels)
  {
    var clusterMap := BuildClusterMap(chunks, labels);
    var keys := AscendingBelow(clusterMap.Keys, LabelBound(labels));
    assert keys == LabelOrder(labels);
    merged := DocsInOrder(clusterMap, keys);
  }

  /** A label's group after one more chunk: it gains the chunk when the chunk has that
      label, and is the empty group before the label's first chunk. */
  lemma GroupStep(chunks: seq<string>, labels: seq<nat>, i: nat)
    requires |labels| == |chunks| && i < |labels|
    ensures forall l :: Group(chunks[..i + 1], labels[..i + 1], l)
                        == Group(chunks[..i], labels[..i], l) + (if labels[i] == l then [chunks[i]] else [])
    ensures labels[i] !in LabelSet(labels[..i]) ==> Group(chunks[..i], labels[..i], labels[i]) == []
  {
    assert chunks[..i + 1][..i] == chunks[..i];
    assert labels[..i + 1][..i] == labels[..i];
    if labels[i] !in LabelSet(labels[..i]) {
      NoGroupWithoutLabel(chunks[..i], labels[..i], labels[i]);
    }
  }

  lemma LabelSetStep(labels: seq<nat>, i: nat)
    requires i < |labels|
    ensures LabelSet(labels[..i + 1]) == LabelSet(labels[..i]) + {labels[i]}
  {
    assert forall j :: 0 <= j < i ==> labels[..i + 1][j] == labels[..i][j];
    assert labels[..i + 1][i] == labels[i];
  }

  lemma {:induction false} NoGroupWithoutLabel(chunks: seq<string>, labels: seq<nat>, l: nat)
    requires |labels| == |chunks| && l !in LabelSet(labels)
    ensures Group(chunks, labels, l) == []
  {
    if chunks != [] {
      var n := |chunks| - 1;
      assert labels[n] in LabelSet(labels);
      assert LabelSet(labels[..n]) <= LabelSet(labels) by {
        forall x | x in LabelSet(labels[..n]) ensures x in LabelSet(labels) {
          var j :| 0 <= j < n && labels[..n][j] == x;
          assert labels[j] == x;
        }
      }
      NoGroupWithoutLabel(chunks[..n], labels[..n], l);
    }
  }

  /** Every chunk sits in its own label's group, after the earlier chunks with that
      label. */
  lemma {:induction false} ChunkInOwnGroup(chunks: seq<string>, labels: seq<nat>, j: nat)
    requires |labels| == |chunks| && j < |chunks|
    ensures var before := |Group(chunks[..j], labels[..j], labels[j])|;
      var g := Group(chunks, labels, labels[j]);
      before < |g| && g[before] == chunks[j]
    decreases |chunks|
  {
    var n := |chunks| - 1;
    GroupStep(chunks, labels, j);
    if j < n {
      ChunkInOwnGroup(chunks[..n], labels[..n], j);
      assert chunks[..n][..j] == chunks[..j] && labels[..n][..j] == labels[..j];
      assert chunks[..n][j] == chunks[j] && labels[..n][j] == labels[j];
    } else {
      assert chunks[..j + 1] == chunks && labels[..j + 1] == labels;
    }
  }

  /** Twice the square of `x`: `r * r >= n / 2` over the reals is `TwiceSquare(r) >= n`. */
  function TwiceSquare(x: nat): nat {
    2 * x * x
  }

  lemma TwiceSquareAtLeast(x: nat)
    ensures TwiceSquare(x) >= x
  {
    if x > 0 {
      assert x * x >= 1 * x;
    }
  }

  /** The smallest `r` with `r * r >= n / 2`, that is `Math.ceil(Math.sqrt(n / 2))`. */
  function CeilSqrtHalf(n: nat): (r: nat)
    ensures TwiceSquare(r) >= n
    ensures r == 0 || TwiceSquare(r - 1) < n
  {
    CeilSqrtHalfFrom(n, 0)
  }

  /** The search upward from `r`, every smaller candidate having fallen short. */
  function CeilSqrtHalfFrom(n: nat, r: nat): (s: nat)
    requires r == 0 || TwiceSquare(r - 1) < n
    ensures r <= s && TwiceSquare(s) >= n
    ensures s == 0 || TwiceSquare(s - 1) < n
    decreases n - r
  {
    if TwiceSquare(r) >= n then r
    else
      TwiceSquareAtLeast(r);
      CeilSqrtHalfFrom(n, r + 1)
  }

  /** The number of clusters asked for: the ceiling of the square root of half the chunk
      count, at most one less than the chunk count, and at least 1. */
  function OptimalClusters(n: nat): (k: nat)
    ensures 1 <= k
    ensures n >= 2 ==> k <= n - 1
  {
    var c := CeilSqrtHalf(n);
    var m := if c < n - 1 then c else n - 1;
    if m > 1 then m else 1
  }

  /** `clusterDocuments`: no chunks is an error; otherwise the chunks are labelled by
      k-means with the cluster count above and merged. */
  method ClusterDocuments(chunks: seq<string>, kmeans: nat -> seq<nat>, similarityThreshold: real)
    returns (r: Result<seq<Doc>>)
    requires forall k :: |kmeans(k)| == |chunks|
    ensures chunks == [] ==> r == Err("No document chunks available for clustering.")
    ensures chunks != [] ==> r == Ok(MergedDocs(chunks, kmeans(OptimalClusters(|chunks|))))
  {
    if |chunks| == 0 {
      return Err("No document chunks available for clustering.");
    }
    var k := OptimalClusters(|chunks|);
    var labels := kmeans(k);
    var merged := MergeSimilarClusters(chunks, labels, similarityThreshold);
    r := Ok(merged);
  }
}
