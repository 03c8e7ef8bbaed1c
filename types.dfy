/** The record and union types shared by the dashboard (types/index.ts). */
module Types {
  import opened Common

  /** `'admin' | 'user'` */
  datatype Role = AdminRole | UserRole

  datatype User = User(
    id: string,
    email: string,
    name: string,
    role: Role,
    createdAt: string,
    lastLogin: Option<string>)

  /** One observation; JavaScript numbers are modelled as reals (NaN and infinities excepted).
      The source's `label` is called `labelText` here (`label` is a keyword). */
  datatype DataPoint = DataPoint(
    x: real,
    y: real,
    labelText: Option<string>,
    timestamp: Option<string>)

  /** `'line' | 'bar' | 'scatter' | 'area'` */
  datatype ChartType = Line | Bar | Scatter | Area

  /** The source's `type` field is called `chartType` here (`type` is a keyword). */
  datatype Dataset = Dataset(
    id: string,
    name: string,
    data: seq<DataPoint>,
    color: string,
    chartType: ChartType,
    visible: bool,
    createdAt: string,
    userId: string)

  /** `'light' | 'dark'` */
  datatype Theme = Light | Dark

  datatype ChartConfig = ChartConfig(
    title: string,
    xLabel: string,
    yLabel: string,
    showGrid: bool,
    showLegend: bool,
    theme: Theme,
    animations: bool)

  /** A named transformation of a dataset's points. */
  datatype ProcessingFunction = ProcessingFunction(
    id: string,
    name: string,
    description: string,
    apply: seq<DataPoint> -> seq<DataPoint>)

  datatype AuthState = AuthState(user: Option<User>, isAuthenticated: bool, loading: bool)
}
