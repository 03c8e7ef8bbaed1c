/**
 * The in-memory dataset store (contexts/DataContext.tsx): an ordered list of
 * datasets and one chart configuration, each replaced wholesale by the five
 * store operations. Every new value is computed by a pure function below;
 * the class DataProvider holds the two state cells.
 */
module DataContext {
  import opened Common
  import opened Types

  /** `Omit<Dataset, 'id' | 'createdAt'>`: what callers hand to addDataset. */
  datatype DatasetInput = DatasetInput(
    name: string,
    data: seq<DataPoint>,
    color: string,
    chartType: ChartType,
    visible: bool,
    userId: string)

  /** `Partial<Dataset>`: a field is present in the update when it is Some. */
  datatype DatasetPatch = DatasetPatch(
    id: Option<string>,
    name: Option<string>,
    data: Option<seq<DataPoint>>,
    color: Option<string>,
    chartType: Option<ChartType>,
    visible: Option<bool>,
    createdAt: Option<string>,
    userId: Option<string>)

  /** `Partial<ChartConfig>` */
  datatype ConfigPatch = ConfigPatch(
    title: Option<string>,
    xLabel: Option<string>,
    yLabel: Option<string>,
    showGrid: Option<bool>,
    showLegend: Option<bool>,
    theme: Option<Theme>,
    animations: Option<bool>)

  const DefaultChartConfig := ChartConfig("Data Visualization", "X Axis", "Y Axis", true, true, Light, true)

  function SamplePoint(x: real, y: real, hour: string): DataPoint {
    DataPoint(x, y, None, Some("2024-01-01T" + hour + ":00:00Z"))
  }

  /** The ten demonstration points the store starts with. */
  const SampleData: seq<DataPoint> := [
    SamplePoint(1.0, 10.0, "00"), SamplePoint(2.0, 15.0, "01"),
    SamplePoint(3.0, 12.0, "02"), SamplePoint(4.0, 18.0, "03"),
    SamplePoint(5.0, 22.0, "04"), SamplePoint(6.0, 19.0, "05"),
    SamplePoint(7.0, 25.0, "06"), SamplePoint(8.0, 28.0, "07"),
    SamplePoint(9.0, 24.0, "08"), SamplePoint(10.0, 30.0, "09")]

  const SampleDataset := Dataset("1", "Sample Dataset", SampleData, "#3B82F6", Line, true,
                                 "2024-01-01T00:00:00Z", "1")

  /** The value of one field after `{...old, ...patch}`. */
  function Pick<T>(present: Option<T>, current: T): T {
    match present
    case Some(v) => v
    case None => current
  }

  /** The `Omit<Dataset, 'id' | 'createdAt'>` view of a dataset. */
  function Unstamp(d: Dataset): DatasetInput {
    DatasetInput(d.name, d.data, d.color, d.chartType, d.visible, d.userId)
  }

  /**
   * `{...dataset, id, createdAt}`: addDataset keeps every given field, so dropping
   * the generated id and timestamp gives the caller's input back.
   */
  function Stamp(input: DatasetInput, id: string, createdAt: string): (d: Dataset)
    ensures Unstamp(d) == input
    ensures d.id == id && d.createdAt == createdAt
  {
    Dataset(id, input.name, input.data, input.color, input.chartType, input.visible, createdAt, input.userId)
  }

  /** The dataset fields the patch names, as they read in the patch; the others as in d. */
  predicate DatasetAgrees(d': Dataset, d: Dataset, p: DatasetPatch) {
    && (if p.id.Some? then d'.id == p.id.value else d'.id == d.id)
    && (if p.name.Some? then d'.name == p.name.value else d'.name == d.name)
    && (if p.data.Some? then d'.data == p.data.value else d'.data == d.data)
    && (if p.color.Some? then d'.color == p.color.value else d'.color == d.color)
    && (if p.chartType.Some? then d'.chartType == p.chartType.value else d'.chartType == d.chartType)
    && (if p.visible.Some? then d'.visible == p.visible.value else d'.visible == d.visible)
    && (if p.createdAt.Some? then d'.createdAt == p.createdAt.value else d'.createdAt == d.createdAt)
    && (if p.userId.Some? then d'.userId == p.userId.value else d'.userId == d.userId)
  }

  /** `{...ds, ...updates}`: every field the update names is overwritten, every other one kept. */
  function Merge(d: Dataset, p: DatasetPatch): (r: Dataset)
    ensures DatasetAgrees(r, d, p)
  {
    Dataset(Pick(p.id, d.id), Pick(p.name, d.name), Pick(p.data, d.data), Pick(p.color, d.color),
            Pick(p.chartType, d.chartType), Pick(p.visible, d.visible), Pick(p.createdAt, d.createdAt),
            Pick(p.userId, d.userId))
  }

  const EmptyPatch := DatasetPatch(None, None, None, None, None, None, None, None)

  /** The patch that sets `visible` and nothing else. */
  function VisiblePatch(v: bool): DatasetPatch {
    EmptyPatch.(visible := Some(v))
  }

  /** For each field present in p, d's current value of it: the update that undoes p. */
  function Snapshot(d: Dataset, p: DatasetPatch): DatasetPatch {
    DatasetPatch(
      if p.id.Some? then Some(d.id) else None,
      if p.name.Some? then Some(d.name) else None,
      if p.data.Some? then Some(d.data) else None,
      if p.color.Some? then Some(d.color) else None,
      if p.chartType.Some? then Some(d.chartType) else None,
      if p.visible.Some? then Some(d.visible) else None,
      if p.createdAt.Some? then Some(d.createdAt) else None,
      if p.userId.Some? then Some(d.userId) else None)
  }

  /** The fields present in either patch, q's value winning: `{...p, ...q}`. */
  function Then(p: DatasetPatch, q: DatasetPatch): DatasetPatch {
    DatasetPatch(
      if q.id.Some? then q.id else p.id,
      if q.name.Some? then q.name else p.name,
      if q.data.Some? then q.data else p.data,
      if q.color.Some? then q.color else p.color,
      if q.chartType.Some? then q.chartType else p.chartType,
      if q.visible.Some? then q.visible else p.visible,
      if q.createdAt.Some? then q.createdAt else p.createdAt,
      if q.userId.Some? then q.userId else p.userId)
  }

  /** The merged dataset is the only one that agrees with the patch and the old dataset; an empty patch changes nothing. */
  lemma MergeUnique(d: Dataset, p: DatasetPatch, d': Dataset)
    ensures DatasetAgrees(d', d, p) ==> d' == Merge(d, p)
    ensures Merge(d, EmptyPatch) == d
  {
  }

  /** Merging the same update twice is merging it once. */
  lemma MergeIdempotent(d: Dataset, p: DatasetPatch)
    ensures Merge(Merge(d, p), p) == Merge(d, p)
  {
  }

  /** Two successive updates are one update with both patches spread together. */
  lemma MergeThen(d: Dataset, p: DatasetPatch, q: DatasetPatch)
    ensures Merge(Merge(d, p), q) == Merge(d, Then(p, q))
  {
  }

  /** Updating fields and then updating them back to their old values restores the dataset. */
  lemma MergeUndo(d: Dataset, p: DatasetPatch)
    ensures Merge(Merge(d, p), Snapshot(d, p)) == d
  {
  }

  /** `prev.map(ds => ds.id === id ? {...ds, ...updates} : ds)` */
  function UpdateMatching(ds: seq<Dataset>, id: string, p: DatasetPatch): (r: seq<Dataset>)
    ensures |r| == |ds|
    ensures forall i :: 0 <= i < |ds| && ds[i].id != id ==> r[i] == ds[i]
    ensures forall i :: 0 <= i < |ds| && ds[i].id == id ==> r[i] == Merge(ds[i], p)
  {
    if ds == [] then []
    else [if ds[0].id == id then Merge(ds[0], p) else ds[0]] + UpdateMatching(ds[1..], id, p)
  }

  /** An id no dataset carries makes updateDataset a no-op. */
  lemma UpdateUnknownId(ds: seq<Dataset>, id: string, p: DatasetPatch)
    requires forall i :: 0 <= i < |ds| ==> ds[i].id != id
    ensures UpdateMatching(ds, id, p) == ds
  {
  }

  /**
   * Updating a set of fields and then updating them back restores the store, provided
   * the update does not move the datasets to another id and every dataset with that
   * id held the values being restored.
   */
  lemma UpdateUndo(ds: seq<Dataset>, id: string, p: DatasetPatch, q: DatasetPatch)
    requires p.id.None? || p.id == Some(id)
    requires forall i :: 0 <= i < |ds| && ds[i].id == id ==> Snapshot(ds[i], p) == q
    ensures UpdateMatching(UpdateMatching(ds, id, p), id, q) == ds
  {
    var r := UpdateMatching(ds, id, p);
    forall i | 0 <= i < |ds| && ds[i].id == id
      ensures r[i].id == id && Merge(r[i], q) == ds[i]
    {
      MergeUndo(ds[i], p);
    }
  }

  /** Hiding a dataset and showing it again (or the reverse) gives back the store. */
  lemma ToggleVisibleTwice(ds: seq<Dataset>, id: string, v: bool)
    requires forall i :: 0 <= i < |ds| && ds[i].id == id ==> ds[i].visible == v
    ensures UpdateMatching(UpdateMatching(ds, id, VisiblePatch(!v)), id, VisiblePatch(v)) == ds
  {
  }

  /** How many datasets carry the id. */
  function CountId(ds: seq<Dataset>, id: string): nat {
    if ds == [] then 0 else (if ds[0].id == id then 1 else 0) + CountId(ds[1..], id)
  }

  /** `prev.filter(ds => ds.id !== id)` */
  function Without(ds: seq<Dataset>, id: string): (r: seq<Dataset>)
    ensures |r| <= |ds|
    ensures forall d :: d in r <==> d in ds && d.id != id
  {
    if ds == [] then []
    else (if ds[0].id == id then [] else [ds[0]]) + Without(ds[1..], id)
  }

  /** The filter keeps order: it distributes over concatenation. */
  lemma {:induction false} WithoutAppend(a: seq<Dataset>, b: seq<Dataset>, id: string)
    ensures Without(a + b, id) == Without(a, id) + Without(b, id)
  {
    if a == [] {
      assert a + b == b;
    } else {
      assert (a + b)[1..] == a[1..] + b;
      WithoutAppend(a[1..], b, id);
    }
  }

  /** Every dataset carrying the id goes, every other one stays. */
  lemma {:induction false} WithoutCount(ds: seq<Dataset>, id: string)
    ensures |Without(ds, id)| + CountId(ds, id) == |ds|
  {
    if ds != [] {
      WithoutCount(ds[1..], id);
    }
  }

  /** An unknown id removes nothing. */
  lemma {:induction false} WithoutUnknownId(ds: seq<Dataset>, id: string)
    requires forall i :: 0 <= i < |ds| ==> ds[i].id != id
    ensures Without(ds, id) == ds
  {
    if ds != [] {
      WithoutUnknownId(ds[1..], id);
    }
  }

  /** Deleting twice is deleting once. */
  lemma WithoutIdempotent(ds: seq<Dataset>, id: string)
    ensures Without(Without(ds, id), id) == Without(ds, id)
  {
    var r := Without(ds, id);
    WithoutUnknownId(r, id);
  }

  /** As long as some dataset carries another id, deleting leaves the store non-empty. */
  lemma WithoutKeepsOthers(ds: seq<Dataset>, id: string, i: nat)
    requires i < |ds| && ds[i].id != id
    ensures Without(ds, id) != []
  {
  }

  /**
   * The length guard counts datasets, not distinct ids: two datasets sharing an id
   * (ids come from a millisecond clock) are removed together and the store empties.
   */
  lemma DuplicateIdsCanEmptyStore(d: Dataset)
    ensures |[d, d]| > 1 && Without([d, d], d.id) == []
  {
  }

  /** `prev.map(ds => ds.id === datasetId ? {...ds, data: f(ds.data)} : ds)` */
  function ProcessMatching(ds: seq<Dataset>, id: string, f: seq<DataPoint> -> seq<DataPoint>): (r: seq<Dataset>)
    ensures |r| == |ds|
    ensures forall i :: 0 <= i < |ds| && ds[i].id != id ==> r[i] == ds[i]
    ensures forall i :: 0 <= i < |ds| && ds[i].id == id ==> r[i].data == f(ds[i].data)
    ensures forall i :: 0 <= i < |ds| ==> r[i].(data := ds[i].data) == ds[i]
  {
    if ds == [] then []
    else [if ds[0].id == id then ds[0].(data := f(ds[0].data)) else ds[0]] + ProcessMatching(ds[1..], id, f)
  }

  /** Processing with the identity function leaves the store unchanged. */
  lemma ProcessIdentity(ds: seq<Dataset>, id: string, f: seq<DataPoint> -> seq<DataPoint>)
    requires forall s :: f(s) == s
    ensures ProcessMatching(ds, id, f) == ds
  {
  }

  /** Processing is updateDataset with the transformed points as the only field. */
  lemma ProcessIsDataUpdate(ds: seq<Dataset>, id: string, f: seq<DataPoint> -> seq<DataPoint>, i: nat)
    requires i < |ds| && ds[i].id == id
    ensures ProcessMatching(ds, id, f)[i] == Merge(ds[i], EmptyPatch.(data := Some(f(ds[i].data))))
  {
  }

  /** The configuration fields the patch names, as they read in the patch; the others as in c. */
  predicate ConfigAgrees(c': ChartConfig, c: ChartConfig, p: ConfigPatch) {
    && (if p.title.Some? then c'.title == p.title.value else c'.title == c.title)
    && (if p.xLabel.Some? then c'.xLabel == p.xLabel.value else c'.xLabel == c.xLabel)
    && (if p.yLabel.Some? then c'.yLabel == p.yLabel.value else c'.yLabel == c.yLabel)
    && (if p.showGrid.Some? then c'.showGrid == p.showGrid.value else c'.showGrid == c.showGrid)
    && (if p.showLegend.Some? then c'.showLegend == p.showLegend.value else c'.showLegend == c.showLegend)
    && (if p.theme.Some? then c'.theme == p.theme.value else c'.theme == c.theme)
    && (if p.animations.Some? then c'.animations == p.animations.value else c'.animations == c.animations)
  }

  /** `{...prev, ...config}`: every field the patch names is overwritten, every other one kept. */
  function MergeConfig(c: ChartConfig, p: ConfigPatch): (r: ChartConfig)
    ensures ConfigAgrees(r, c, p)
  {
    ChartConfig(Pick(p.title, c.title), Pick(p.xLabel, c.xLabel), Pick(p.yLabel, c.yLabel),
                Pick(p.showGrid, c.showGrid), Pick(p.showLegend, c.showLegend), Pick(p.theme, c.theme),
                Pick(p.animations, c.animations))
  }

  /** The merged configuration is the only one that agrees with the patch and the old configuration. */
  lemma MergeConfigUnique(c: ChartConfig, p: ConfigPatch, c': ChartConfig)
    ensures ConfigAgrees(c', c, p) ==> c' == MergeConfig(c, p)
  {
  }

  /** Applying the same configuration patch twice equals applying it once. */
  lemma MergeConfigIdempotent(c: ChartConfig, p: ConfigPatch)
    ensures MergeConfig(MergeConfig(c, p), p) == MergeConfig(c, p)
  {
  }

  /** The store: the datasets and chart configuration state cells of the provider. */
  class DataProvider {
    var datasets: seq<Dataset>
    var chartConfig: ChartConfig

    /** One sample dataset and the default configuration. */
    constructor ()
      ensures datasets == [SampleDataset] && chartConfig == DefaultChartConfig
      ensures |datasets| == 1 && datasets[0].id == "1" && datasets[0].name == "Sample Dataset"
      ensures |datasets[0].data| == 10 && datasets[0].visible && datasets[0].chartType == Line
      ensures chartConfig.showGrid && chartConfig.showLegend && chartConfig.theme == Light && chartConfig.animations
    {
      datasets := [SampleDataset];
      chartConfig := DefaultChartConfig;
    }

    /** Appends the input with the given fresh id and creation time. */
    method AddDataset(input: DatasetInput, id: string, createdAt: string)
      modifies this
      ensures datasets == old(datasets) + [Stamp(input, id, createdAt)]
      ensures |datasets| == |old(datasets)| + 1 && datasets[..|old(datasets)|] == old(datasets)
      ensures Unstamp(datasets[|datasets| - 1]) == input
      ensures chartConfig == old(chartConfig)
    {
      datasets := datasets + [Stamp(input, id, createdAt)];
    }

    method UpdateDataset(id: string, updates: DatasetPatch)
      modifies this
      ensures datasets == UpdateMatching(old(datasets), id, updates)
      ensures chartConfig == old(chartConfig)
    {
      datasets := UpdateMatching(datasets, id, updates);
    }

    /** Removes every dataset with the id, unless the store holds one dataset or none. */
    method DeleteDataset(id: string)
      modifies this
      ensures |old(datasets)| <= 1 ==> datasets == old(datasets)
      ensures |old(datasets)| > 1 ==> datasets == Without(old(datasets), id)
      ensures chartConfig == old(chartConfig)
    {
      if |datasets| > 1 {
        datasets := Without(datasets, id);
      }
    }

    method UpdateChartConfig(config: ConfigPatch)
      modifies this
      ensures chartConfig == MergeConfig(old(chartConfig), config)
      ensures ConfigAgrees(chartConfig, old(chartConfig), config)
      ensures datasets == old(datasets)
    {
      chartConfig := MergeConfig(chartConfig, config);
    }

    method ProcessData(datasetId: string, f: seq<DataPoint> -> seq<DataPoint>)
      modifies this
      ensures datasets == ProcessMatching(old(datasets), datasetId, f)
      ensures chartConfig == old(chartConfig)
    {
      datasets := ProcessMatching(datasets, datasetId, f);
    }
  }
}
