/**
  * Archetype assignment after the clustering (Backend/model/archetypes.py): the nearest
  * centroid, the gap-based confidence, the archetype name with its fallback, the prototype
  * examples of a cluster, and the minutes filter applied before training.
  * Centroid distances are given; the clustering itself is not part of this model.
  */
module Archetypes {
  import opened Wrappers
  import opened Text
  import opened Seqs

  // ---------------------------------------------------------------------------
  // The nearest centroid and the confidence
  // ---------------------------------------------------------------------------

  /** `np.argmin`: the first index of a least distance. */
  function ArgMin(d: seq<real>): (k: nat)
    requires d != []
    ensures k < |d|
    ensures forall j :: 0 <= j < |d| ==> d[k] <= d[j]
    ensures forall j :: 0 <= j < k ==> d[j] > d[k]
  {
    if |d| == 1 then 0
    else
      var k := ArgMin(d[..|d| - 1]);
      assert forall j :: 0 <= j < |d| - 1 ==> d[..|d| - 1][j] == d[j];
      if d[|d| - 1] < d[k] then |d| - 1 else k
  }

  function Identity(x: real): real { x }

  /** `np.sort`: the distances in ascending order. */
  function Ascending(d: seq<real>): seq<real> {
    SortBy(d, Identity)
  }

  /** `1 - d1 / d2` over the two smallest distances when there are two and d2 > 0, else 0. */
  function Confidence(d: seq<real>): real {
    var s := Ascending(d);
    if |s| >= 2 && s[1] > 0.0 then 1.0 - s[0] / s[1] else 0.0
  }

  lemma AscendingFacts(d: seq<real>)
    ensures |Ascending(d)| == |d|
    ensures multiset(Ascending(d)) == multiset(d)
    ensures forall i, j :: 0 <= i < j < |d| ==> Ascending(d)[i] <= Ascending(d)[j]
  {
    SortByFacts(d, Identity);
    assert |multiset(Ascending(d))| == |multiset(d)|;
  }

  /** The smallest sorted distance is the distance to the chosen centroid. */
  lemma AscendingFirstIsArgMin(d: seq<real>)
    requires d != []
    ensures Ascending(d)[0] == d[ArgMin(d)]
  {
    AscendingFacts(d);
    var s := Ascending(d);
    var k := ArgMin(d);
    assert s[0] in multiset(d);
    assert d[k] in multiset(s);
    var i :| 0 <= i < |s| && s[i] == d[k];
    assert s[0] <= s[i];
  }

  lemma RatioAtMostOne(a: real, b: real)
    requires 0.0 <= a <= b && b > 0.0
    ensures 0.0 <= a / b <= 1.0
  {
    assert a / b * b == a;
  }

  /** With non-negative distances the confidence lies in [0, 1]. */
  lemma ConfidenceRange(d: seq<real>)
    requires forall i :: 0 <= i < |d| ==> d[i] >= 0.0
    ensures 0.0 <= Confidence(d) <= 1.0
  {
    var s := Ascending(d);
    AscendingFacts(d);
    if |s| >= 2 && s[1] > 0.0 {
      assert s[0] in multiset(d);
      var i :| 0 <= i < |d| && d[i] == s[0];
      RatioAtMostOne(s[0], s[1]);
    }
  }

  /** The confidence is 0 exactly when there are fewer than two distances, or the second is 0, or the two smallest tie. */
  lemma ConfidenceZero(d: seq<real>)
    ensures var s := Ascending(d);
      Confidence(d) == 0.0 <==> |s| < 2 || s[1] <= 0.0 || s[0] == s[1]
  {
    var s := Ascending(d);
    if |s| >= 2 && s[1] > 0.0 {
      if s[0] / s[1] == 1.0 {
        assert s[0] == s[0] / s[1] * s[1];
      }
    }
  }

  /** What `assign_ncaa_to_archetype` returns after the distances: id, name and confidence. */
  datatype Assignment = Assignment(clusterId: nat, name: string, confidence: real)

  function Assign(d: seq<real>): (a: Assignment)
    requires d != []
    ensures a.clusterId < |d|
    ensures forall j :: 0 <= j < |d| ==> d[a.clusterId] <= d[j]
    ensures forall j :: 0 <= j < a.clusterId ==> d[j] > d[a.clusterId]
    ensures a.name == ArchetypeName(a.clusterId) && a.confidence == Confidence(d)
  {
    var k := ArgMin(d);
    Assignment(k, ArchetypeName(k), Confidence(d))
  }

  // ---------------------------------------------------------------------------
  // Archetype names
  // ---------------------------------------------------------------------------

  /** `ARCHETYPE_NAMES`, in id order. */
  const ArchetypeNames: seq<string> := [
    "Primary Wing Scorer",
    "3-and-D Lengthy Wing",
    "Ball-Dominant Offensive Guards",
    "Defensive Utility Wing",
    "Rebounding Interior Big",
    "Versatile Point Forward",
    "2-Way Sharp-Shooter",
    "Pass-First Ball-Handler"
  ]

  /** `ARCHETYPE_NAMES.get(cluster_id, f"Cluster {cluster_id}")`. */
  function ArchetypeName(id: int): string {
    if 0 <= id < |ArchetypeNames| then ArchetypeNames[id] else "Cluster " + IntText(id)
  }

  const FallbackPrefix := "Cluster "

  /** Ids 0..7 have their archetype names; every other id gets "Cluster <id>". */
  lemma ArchetypeNameCases(id: int)
    ensures 0 <= id < 8 ==> ArchetypeName(id) == ArchetypeNames[id]
    ensures (id < 0 || id >= 8) ==>
      |ArchetypeName(id)| > |FallbackPrefix| && ArchetypeName(id)[..|FallbackPrefix|] == FallbackPrefix
  {
    if id < 0 || id >= 8 {
      assert ArchetypeName(id) == FallbackPrefix + IntText(id);
      assert (FallbackPrefix + IntText(id))[..|FallbackPrefix|] == FallbackPrefix;
    }
  }

  /** No archetype name starts like a fallback name, so the two kinds never collide. */
  lemma NamesAreNotFallbacks(i: nat)
    requires i < |ArchetypeNames|
    ensures |ArchetypeNames[i]| < |FallbackPrefix| || ArchetypeNames[i][..|FallbackPrefix|] != FallbackPrefix
  {
    assert ArchetypeNames[i][0] != 'C';
  }

  // ---------------------------------------------------------------------------
  // top_nba_examples
  // ---------------------------------------------------------------------------

  /** A labelled NBA row: its cluster and its distance to that cluster's centroid. */
  datatype LabeledRow = LabeledRow(player: string, cluster: int, distToCentroid: real)

  function Dist(r: LabeledRow): real { r.distToCentroid }

  function InCluster(id: int): LabeledRow -> bool {
    (r: LabeledRow) => r.cluster == id
  }

  function TakeRows(s: seq<LabeledRow>, n: nat): (r: seq<LabeledRow>)
    ensures |r| == if |s| < n then |s| else n
    ensures r == s[..|r|]
  {
    if |s| <= n then s else s[..n]
  }

  /** The cluster's rows sorted by distance to the centroid, the first `n` of them. */
  function TopExamples(rows: seq<LabeledRow>, clusterId: int, n: nat): seq<LabeledRow> {
    TakeRows(SortBy(Select(rows, InCluster(clusterId)), Dist), n)
  }

  /** The rows past a sorted prefix are no closer than the rows in it. */
  lemma PrefixIsClosest(s: seq<LabeledRow>, m: nat)
    requires m <= |s|
    requires SortedBy(s, Dist)
    ensures forall x, y :: multiset(s[..m])[x] < multiset(s)[x] && y in s[..m] ==> y.distToCentroid <= x.distToCentroid
  {
    var r, t := s[..m], s[m..];
    assert s == r + t;
    forall x, y | multiset(r)[x] < multiset(s)[x] && y in r
      ensures y.distToCentroid <= x.distToCentroid
    {
      assert multiset(s) == multiset(r) + multiset(t);
      assert x in multiset(t);
      var k :| 0 <= k < |t| && t[k] == x;
      var i :| 0 <= i < |r| && r[i] == y;
      assert s[i] == y && s[m + k] == x;
    }
  }

  lemma PrefixIsSubMultiset(s: seq<LabeledRow>, m: nat)
    requires m <= |s|
    ensures multiset(s[..m]) <= multiset(s)
  {
    assert s == s[..m] + s[m..];
  }

  /**
    * The examples are rows of the cluster, at most `n` of them (all of them when the cluster
    * is smaller), sorted by ascending distance, and no row of the cluster that was left out
    * is closer than a returned one.
    */
  lemma TopExamplesFacts(rows: seq<LabeledRow>, clusterId: int, n: nat)
    ensures var r := TopExamples(rows, clusterId, n);
      var c := Select(rows, InCluster(clusterId));
      && |r| == (if |c| < n then |c| else n)
      && (forall x :: x in r ==> x in rows && x.cluster == clusterId)
      && (forall i, j :: 0 <= i < j < |r| ==> r[i].distToCentroid <= r[j].distToCentroid)
      && multiset(r) <= multiset(c)
      && (forall x, y :: multiset(r)[x] < multiset(c)[x] && y in r ==> y.distToCentroid <= x.distToCentroid)
  {
    var c := Select(rows, InCluster(clusterId));
    var s := SortBy(c, Dist);
    SortByFacts(c, Dist);
    assert |s| == |c| by { assert |multiset(s)| == |multiset(c)|; }
    var r := TakeRows(s, n);
    PrefixIsSubMultiset(s, |r|);
    PrefixIsClosest(s, |r|);
    forall x | x in r ensures x in rows && x.cluster == clusterId {
      assert x in multiset(c);
    }
  }

  // ---------------------------------------------------------------------------
  // The minutes filter of _build_X
  // ---------------------------------------------------------------------------

  /** An NBA row as the filter sees it: total minutes after `to_numeric(errors="coerce")`. */
  datatype NbaRow = NbaRow(player: string, mp: Option<real>)

  function MinutesAtLeast(minMp: int): NbaRow -> bool {
    (r: NbaRow) => r.mp.Some? && r.mp.value >= minMp as real
  }

  /** With `min_mp` given and an MP column present, only rows with MP >= min_mp stay. */
  function FilterByMinutes(rows: seq<NbaRow>, minMp: Option<int>, hasMpColumn: bool): seq<NbaRow> {
    if minMp.Some? && hasMpColumn then Select(rows, MinutesAtLeast(minMp.value)) else rows
  }

  /**
    * A kept row had minutes of at least `min_mp` (a missing or non-numeric MP is dropped),
    * every such row is kept, and without `min_mp` or an MP column nothing is dropped.
    */
  lemma FilterByMinutesFacts(rows: seq<NbaRow>, minMp: Option<int>, hasMpColumn: bool)
    ensures minMp.Some? && hasMpColumn ==> forall r ::
      r in FilterByMinutes(rows, minMp, hasMpColumn) <==> r in rows && r.mp.Some? && r.mp.value >= minMp.value as real
    ensures minMp.None? || !hasMpColumn ==> FilterByMinutes(rows, minMp, hasMpColumn) == rows
    ensures |FilterByMinutes(rows, minMp, hasMpColumn)| <= |rows|
  {
    if minMp.Some? && hasMpColumn {
      SelectMembers(rows, MinutesAtLeast(minMp.value));
    }
  }
}
