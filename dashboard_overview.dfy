/**
 * The overview page's figures (components/dashboard/DashboardOverview.tsx):
 * dataset count, total point count, visible count and the first five datasets.
 */
module DashboardOverview {
  import opened Types
  import opened DataContext
  import opened ChartCanvas

  /** `datasets.reduce((acc, ds) => acc + ds.data.length, 0)`, folding from the left. */
  function PointTotal(ds: seq<Dataset>): (total: nat)
    ensures ds == [] ==> total == 0
    ensures forall i :: 0 <= i < |ds| ==> |ds[i].data| <= total
  {
    if ds == [] then 0
    else
      var front := ds[..|ds| - 1];
      assert forall i :: 0 <= i < |front| ==> front[i] == ds[i];
      PointTotal(front) + |ds[|ds| - 1].data|
  }

  /** The total over a concatenation is the sum of the totals. */
  lemma {:induction false} PointTotalAppend(a: seq<Dataset>, b: seq<Dataset>)
    ensures PointTotal(a + b) == PointTotal(a) + PointTotal(b)
    decreases |b|
  {
    if b == [] {
      assert a + b == a;
    } else {
      var n := |b| - 1;
      assert (a + b)[..|a + b| - 1] == a + b[..n];
      assert (a + b)[|a + b| - 1] == b[n];
      PointTotalAppend(a, b[..n]);
    }
  }

  /** The positions of the visible datasets. */
  function VisibleIndices(ds: seq<Dataset>): set<nat> {
    set i: nat | i < |ds| && ds[i].visible
  }

  /** Extending the list by one dataset adds its position exactly when it is visible. */
  lemma VisibleIndicesSnoc(ds: seq<Dataset>)
    requires ds != []
    ensures var n := |ds| - 1;
            VisibleIndices(ds) == VisibleIndices(ds[..n]) + (if ds[n].visible then {n} else {})
    ensures |ds| - 1 !in VisibleIndices(ds[..|ds| - 1])
  {
    var n := |ds| - 1;
    forall i: nat | i < n
      ensures ds[..n][i] == ds[i]
    {
    }
  }

  /** Extending the list by one dataset lengthens the filtered list exactly when it is visible. */
  lemma VisibleSnocLength(ds: seq<Dataset>)
    requires ds != []
    ensures |Visible(ds)| == |Visible(ds[..|ds| - 1])| + if ds[|ds| - 1].visible then 1 else 0
  {
    var n := |ds| - 1;
    var front, last := ds[..n], [ds[n]];
    assert front + last == ds;
    VisibleAppend(front, last);
    assert last[1..] == [];
    assert Visible(last) == if ds[n].visible then last else [];
  }

  /** The filter keeps exactly one dataset per visible position. */
  lemma {:induction false} VisibleCount(ds: seq<Dataset>)
    ensures |Visible(ds)| == |VisibleIndices(ds)|
    decreases |ds|
  {
    if ds != [] {
      VisibleCount(ds[..|ds| - 1]);
      VisibleSnocLength(ds);
      VisibleIndicesSnoc(ds);
    }
  }

  /** The figures shown on the stat cards. */
  datatype Stats = Stats(totalDatasets: nat, dataPoints: nat, activeCharts: nat)

  /**
   * The stat cards: the dataset count, the sum of all point counts, and the number
   * of visible datasets (0 exactly when nothing is visible).
   */
  function Overview(ds: seq<Dataset>): (s: Stats)
    ensures s.totalDatasets == |ds|
    ensures s.dataPoints == PointTotal(ds)
    ensures forall i :: 0 <= i < |ds| ==> |ds[i].data| <= s.dataPoints
    ensures s.activeCharts == |VisibleIndices(ds)|
    ensures s.activeCharts <= s.totalDatasets
    ensures s.activeCharts == 0 <==> forall d :: d in ds ==> !d.visible
  {
    var vis := Visible(ds);
    assert vis != [] ==> vis[0] in vis;
    VisibleCount(ds);
    Stats(|ds|, PointTotal(ds), |vis|)
  }

  /** Adding a dataset adds one to the dataset count and its points to the point count. */
  lemma OverviewAfterAdd(ds: seq<Dataset>, input: DatasetInput, id: string, createdAt: string)
    ensures Overview(ds + [Stamp(input, id, createdAt)]).totalDatasets == Overview(ds).totalDatasets + 1
    ensures Overview(ds + [Stamp(input, id, createdAt)]).dataPoints == Overview(ds).dataPoints + |input.data|
    ensures Overview(ds + [Stamp(input, id, createdAt)]).activeCharts ==
              Overview(ds).activeCharts + (if input.visible then 1 else 0)
  {
    var d := Stamp(input, id, createdAt);
    assert (ds + [d])[..|ds + [d]| - 1] == ds;
    VisibleAppend(ds, [d]);
    assert [d][1..] == [];
  }

  /** `datasets.slice(0, 5)`: the first min(5, n) datasets in store order. */
  function Recent(ds: seq<Dataset>): (r: seq<Dataset>)
    ensures |r| == if |ds| < 5 then |ds| else 5
    ensures forall i :: 0 <= i < |r| ==> r[i] == ds[i]
  {
    if |ds| < 5 then ds else ds[..5]
  }
}
