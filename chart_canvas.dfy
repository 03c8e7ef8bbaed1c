/**
 * The chart view (components/visualization/ChartCanvas.tsx): the visible datasets,
 * their points zipped by index into one row per index of the first visible
 * dataset, and the chart kind taken from that first dataset.
 */
module ChartCanvas {
  import opened Types

  /** `datasets.filter(ds => ds.visible)` */
  function Visible(ds: seq<Dataset>): (r: seq<Dataset>)
    ensures |r| <= |ds|
    ensures forall d :: d in r <==> d in ds && d.visible
  {
    if ds == [] then []
    else (if ds[0].visible then [ds[0]] else []) + Visible(ds[1..])
  }

  /** The filter keeps store order: it distributes over concatenation. */
  lemma {:induction false} VisibleAppend(a: seq<Dataset>, b: seq<Dataset>)
    ensures Visible(a + b) == Visible(a) + Visible(b)
  {
    if a == [] {
      assert a + b == b;
    } else {
      assert (a + b)[1..] == a[1..] + b;
      VisibleAppend(a[1..], b);
    }
  }

  /** The first visible dataset is the first dataset, in store order, that is visible. */
  lemma {:induction false} FirstVisible(ds: seq<Dataset>, k: nat)
    requires k < |ds| && ds[k].visible
    requires forall j :: 0 <= j < k ==> !ds[j].visible
    ensures Visible(ds) != [] && Visible(ds)[0] == ds[k]
  {
    if k > 0 {
      FirstVisible(ds[1..], k - 1);
    }
  }

  /** The property name of a row's position, which the x axis reads (`dataKey="index"`). */
  const IndexKey := "index"

  /** Assigning a number to this property of a plain object is ignored. */
  const ProtoKey := "__proto__"

  /** `dataPoint[key] = y` on a row object. */
  function SetKey(row: map<string, real>, key: string, y: real): map<string, real> {
    if key == ProtoKey then row else row[key := y]
  }

  /**
   * Row i of the merged chart data: the object `{ index }`, then the forEach over the
   * visible datasets, each one with a point at i writing its y under its name, later
   * ones overwriting earlier ones (a dataset named "index" overwrites the position too).
   */
  function RowValues(vis: seq<Dataset>, i: nat): (m: map<string, real>)
    ensures forall k :: k in m <==>
              k == IndexKey || exists j :: 0 <= j < |vis| && vis[j].name == k && k != ProtoKey && i < |vis[j].data|
  {
    if vis == [] then map[IndexKey := i as real]
    else
      var m := RowValues(vis[..|vis| - 1], i);
      var d := vis[|vis| - 1];
      if i < |d.data| then SetKey(m, d.name, d.data[i].y) else m
  }

  /**
   * A name maps to the y of the LAST visible dataset with that name that has a
   * point at i: among datasets sharing a name, the later one in store order wins.
   */
  lemma {:induction false} RowValueFromLastWriter(vis: seq<Dataset>, i: nat, j: nat)
    requires j < |vis| && i < |vis[j].data| && vis[j].name != ProtoKey
    requires forall j' :: j < j' < |vis| && vis[j'].name == vis[j].name ==> i >= |vis[j'].data|
    ensures vis[j].name in RowValues(vis, i)
    ensures RowValues(vis, i)[vis[j].name] == vis[j].data[i].y
  {
    var n := |vis| - 1;
    var front, d := vis[..n], vis[n];
    var name, y := vis[j].name, vis[j].data[i].y;
    if j == n {
      assert RowValues(vis, i) == SetKey(RowValues(front, i), name, y);
    } else {
      forall j' | j < j' < |front| && front[j'].name == name
        ensures i >= |front[j'].data|
      {
        assert front[j'] == vis[j'];
      }
      assert front[j] == vis[j];
      RowValueFromLastWriter(front, i, j);
      if i < |d.data| {
        assert d.name != name;
        assert RowValues(vis, i) == SetKey(RowValues(front, i), d.name, d.data[i].y);
      } else {
        assert RowValues(vis, i) == RowValues(front, i);
      }
    }
  }

  /** Unless a visible dataset named "index" has a point at i, row i's position property is i. */
  lemma {:induction false} RowIndexKept(vis: seq<Dataset>, i: nat)
    requires forall j :: 0 <= j < |vis| && vis[j].name == IndexKey ==> i >= |vis[j].data|
    ensures IndexKey in RowValues(vis, i) && RowValues(vis, i)[IndexKey] == i as real
  {
    if vis != [] {
      var front := vis[..|vis| - 1];
      forall j | 0 <= j < |front| && front[j].name == IndexKey
        ensures i >= |front[j].data|
      {
        assert front[j] == vis[j];
      }
      RowIndexKept(front, i);
    }
  }

  /** A visible dataset named "index" replaces row i's position by its own y. */
  lemma IndexNameOverwritesPosition(d: Dataset, i: nat)
    requires d.name == IndexKey && i < |d.data|
    ensures RowValues([d], i)[IndexKey] == d.data[i].y
  {
    assert [d][..0] == [];
  }

  /** A visible dataset named "__proto__" leaves no value in the row. */
  lemma ProtoNameDropped(d: Dataset, i: nat)
    requires d.name == ProtoKey && i < |d.data|
    ensures RowValues([d], i) == map[IndexKey := i as real]
  {
    assert [d][..0] == [];
  }

  /** `visibleDatasets[0].data.map((_, index) => row)`: one row per point of the first visible dataset. */
  function CombinedData(vis: seq<Dataset>): (rows: seq<map<string, real>>)
    requires vis != []
    ensures |rows| == |vis[0].data|
    ensures forall i :: 0 <= i < |rows| ==> rows[i] == RowValues(vis, i)
  {
    seq(|vis[0].data|, i requires 0 <= i < |vis[0].data| => RowValues(vis, i))
  }

  /** What the canvas shows: a placeholder, or a chart of one kind over the merged rows. */
  datatype ChartView = NoData | Chart(kind: ChartType, rows: seq<map<string, real>>)

  /** The canvas for the store's datasets; the kind is the first visible dataset's type. */
  function Render(ds: seq<Dataset>): (v: ChartView)
    ensures v.NoData? <==> forall d :: d in ds ==> !d.visible
  {
    var vis := Visible(ds);
    if vis == [] then NoData
    else
      assert vis[0] in vis;
      Chart(vis[0].chartType, CombinedData(vis))
  }

  /**
   * The rows of a chart: as many as the first visible dataset has points (longer
   * datasets are truncated); row i is `RowValues` of the visible datasets, so it
   * names the visible datasets with a point at i, and its position property is i
   * unless a visible dataset named "index" has a point there.
   */
  lemma RenderRows(ds: seq<Dataset>, k: nat)
    requires k < |ds| && ds[k].visible
    requires forall j :: 0 <= j < k ==> !ds[j].visible
    ensures Render(ds).Chart?
    ensures Render(ds).kind == ds[k].chartType
    ensures |Render(ds).rows| == |ds[k].data|
    ensures forall i :: 0 <= i < |ds[k].data| ==> Render(ds).rows[i] == RowValues(Visible(ds), i)
    ensures forall i :: 0 <= i < |ds[k].data| && (forall d :: d in ds && d.visible && d.name == IndexKey ==> i >= |d.data|)
              ==> Render(ds).rows[i][IndexKey] == i as real
  {
    FirstVisible(ds, k);
    var vis := Visible(ds);
    forall i | 0 <= i < |ds[k].data| && (forall d :: d in ds && d.visible && d.name == IndexKey ==> i >= |d.data|)
      ensures Render(ds).rows[i][IndexKey] == i as real
    {
      forall j | 0 <= j < |vis| && vis[j].name == IndexKey
        ensures i >= |vis[j].data|
      {
        assert vis[j] in vis;
      }
      RowIndexKept(vis, i);
    }
  }
}
