/** The dashboard document both generators emit, keeping the fields that
    carry meaning: panel kind, id, grid rectangle, query targets with their
    refIds, unit, bounds, decimals, thresholds, series style, legend calcs,
    description and transformations. Colour palettes and other inert
    styling literals are not represented. */
module Grafana {

  datatype Option<+T> = None | Some(value: T)

  datatype Result<+T> = Success(value: T) | Failure(error: string)

  /** Whether the script was run with `--export`. */
  datatype Mode = Local | Export

  datatype Datasource = Datasource(pluginType: string, uid: string)

  datatype GridPos = GridPos(h: int, w: int, x: int, y: int)

  /** A refId is one letter, held here as its code point so that
      `chr(ord(start) + i)` can be written as arithmetic. */
  type RefId = nat

  const REF_A: RefId := 'A' as nat
  const REF_B: RefId := 'B' as nat

  /** Largest code point `chr` accepts. */
  const MAX_CODE_POINT: nat := 0x10FFFF

  datatype QueryType = Range | Instant

  datatype Target = Target(
    datasource: Datasource,
    expr: string,
    legendFormat: string,
    refId: RefId,
    queryType: Option<QueryType>,
    instant: bool,
    tableFormat: bool)

  /** One threshold step; the first step's value is `None` (the baseline). */
  datatype Step = Step(color: string, value: Option<real>)

  datatype Mapping = ValueText(value: string, text: string)

  /** The `custom` block of a time-series panel. */
  datatype SeriesStyle = SeriesStyle(drawStyle: string, fillOpacity: int, showPoints: string, stacking: string)

  datatype Matcher = ByName(name: string) | ByRegexp(pattern: string)

  datatype Property = FixedColor(color: string) | DisplayName(name: string) | Width(px: int) | GaugeCell | Hidden

  datatype Override = Override(matcher: Matcher, properties: seq<Property>)

  /** `fieldConfig.defaults` and `fieldConfig.overrides`. */
  datatype FieldConfig = FieldConfig(
    unit: Option<string>,
    min: Option<int>,
    max: Option<int>,
    decimals: Option<int>,
    thresholds: seq<Step>,
    mappings: seq<Mapping>,
    custom: Option<SeriesStyle>,
    overrides: seq<Override>)

  datatype Options =
    | StatOptions(textMode: string)
    | SeriesOptions(legendCalcs: seq<string>)
    | GaugeOptions
    | TableOptions(sortByDisplayName: string)
    | TextOptions(content: string)

  datatype Transformation =
    | Merge
    | Organize(exclude: set<string>, indexByName: map<string, int>, renameByName: map<string, string>)
    | SortBy(field: string, desc: bool)

  datatype Kind = Stat | Timeseries | Gauge | Table | Text

  /** A row (`"type": "row"`) or a visualisation panel. */
  datatype Panel =
    | Row(id: int, title: string, gridPos: GridPos, collapsed: bool, panels: seq<Panel>, description: Option<string>)
    | Viz(kind: Kind, id: int, title: string, gridPos: GridPos, datasource: Datasource,
          fieldConfig: Option<FieldConfig>, options: Options, targets: seq<Target>,
          transformations: seq<Transformation>, description: Option<string>)

  /** Python's `value or default` for an optional list: a missing and an
      empty list both give the default. */
  function OrDefault<T>(value: Option<seq<T>>, default: seq<T>): seq<T>
  {
    if value.Some? && value.value != [] then value.value else default
  }

  /** Python's `value if value is not None else default`: an explicit empty
      list is kept. */
  function IfNotNone<T>(value: Option<seq<T>>, default: seq<T>): seq<T>
  {
    if value.Some? then value.value else default
  }

  /** The single green baseline step most panels default to. */
  const BASELINE: seq<Step> := [Step("green", None)]

  /** The `if desc: p["description"] = desc` idiom. */
  function Describe(desc: string): (r: Option<string>)
    ensures r.Some? <==> desc != ""
    ensures r.Some? ==> r.value == desc
  {
    if desc != "" then Some(desc) else None
  }

  /** A freshly built row: not collapsed and owning no panels. */
  ghost predicate FreshRow(p: Panel)
  {
    p.Row? && !p.collapsed && p.panels == []
  }

  /** `row(id, title, y, desc)`: a full-width row one unit high. */
  function NewRow(id: int, title: string, y: int, desc: string): (r: Panel)
    ensures FreshRow(r)
    ensures r.id == id && r.title == title
    ensures r.gridPos == GridPos(1, 24, 0, y)
    ensures r.description == Describe(desc)
  {
    Row(id, title, GridPos(1, 24, 0, y), false, [], Describe(desc))
  }

  // ---------------------------------------------------------------------
  // Export mode: re-addressing every datasource reference.

  function RetargetTargets(ts: seq<Target>, ds: Datasource): (r: seq<Target>)
    ensures |r| == |ts|
    ensures forall i :: 0 <= i < |ts| ==> r[i] == ts[i].(datasource := ds)
  {
    seq(|ts|, i requires 0 <= i < |ts| => ts[i].(datasource := ds))
  }

  /** The panel with every datasource reference, its own and its targets',
      and those of any panels nested in it, replaced by `ds`. */
  function Retarget(p: Panel, ds: Datasource): (r: Panel)
    ensures r.Row? == p.Row? && r.id == p.id && r.title == p.title && r.gridPos == p.gridPos
    decreases p, 1
  {
    match p
    case Row(_, _, _, _, children, _) => p.(panels := RetargetAll(children, ds))
    case Viz(_, _, _, _, _, _, _, targets, _, _) => p.(datasource := ds, targets := RetargetTargets(targets, ds))
  }

  function RetargetAll(ps: seq<Panel>, ds: Datasource): (r: seq<Panel>)
    ensures |r| == |ps|
    ensures forall i :: 0 <= i < |ps| ==> r[i] == Retarget(ps[i], ds)
    decreases ps, 0
  {
    if ps == [] then [] else [Retarget(ps[0], ds)] + RetargetAll(ps[1..], ds)
  }

  lemma {:induction false} RetargetAllAppend(a: seq<Panel>, b: seq<Panel>, ds: Datasource)
    ensures RetargetAll(a + b, ds) == RetargetAll(a, ds) + RetargetAll(b, ds)
  {
  }

  /** Re-addressing twice is re-addressing once with the last datasource, so
      a document generated in one mode carries no trace of the other. */
  lemma {:induction false} RetargetOverrides(p: Panel, d1: Datasource, d2: Datasource)
    ensures Retarget(Retarget(p, d1), d2) == Retarget(p, d2)
    decreases p
  {
    match p
    case Row(_, _, _, _, children, _) =>
      forall i | 0 <= i < |children|
        ensures RetargetAll(RetargetAll(children, d1), d2)[i] == RetargetAll(children, d2)[i]
      {
        RetargetOverrides(children[i], d1, d2);
      }
    case Viz(_, _, _, _, _, _, _, _, _, _) =>
  }

  function Ids(ps: seq<Panel>): (r: seq<int>)
    ensures |r| == |ps|
    ensures forall i :: 0 <= i < |ps| ==> r[i] == ps[i].id
  {
    seq(|ps|, i requires 0 <= i < |ps| => ps[i].id)
  }

  function Grids(ps: seq<Panel>): (r: seq<GridPos>)
    ensures |r| == |ps|
    ensures forall i :: 0 <= i < |ps| ==> r[i] == ps[i].gridPos
  {
    seq(|ps|, i requires 0 <= i < |ps| => ps[i].gridPos)
  }

  // ---------------------------------------------------------------------
  // The document.

  datatype VarKind = Custom | Textbox | Query

  datatype VarOption = VarOption(selected: bool, text: string, value: string)

  /** One entry of `templating.list`. */
  datatype TemplateVar = TemplateVar(
    name: string,
    labelText: string,
    kind: VarKind,
    options: seq<VarOption>,
    query: string,
    datasource: Option<Datasource>)

  /** The values a variable offers, in order. */
  function OptionValues(options: seq<VarOption>): (r: seq<string>)
    ensures |r| == |options|
    ensures forall i :: 0 <= i < |options| ==> r[i] == options[i].value
  {
    seq(|options|, i requires 0 <= i < |options| => options[i].value)
  }

  /** A fixed-choice variable as Grafana expects it: each option shows its
      own value, only the first is selected, and the query lists the
      values. */
  ghost predicate ListsOwnOptions(v: TemplateVar, query: string)
  {
    && |v.options| > 0
    && (forall i :: 0 <= i < |v.options| ==> v.options[i].text == v.options[i].value)
    && (forall i :: 0 <= i < |v.options| ==> (v.options[i].selected <==> i == 0))
    && v.query == query
  }

  function RetargetVar(v: TemplateVar, ds: Datasource): TemplateVar
  {
    if v.datasource.Some? then v.(datasource := Some(ds)) else v
  }

  /** One entry of `__inputs` (export only). */
  datatype Input = Input(name: string, labelText: string, pluginId: string)

  /** One entry of `__requires` (export only). */
  datatype Requirement = Requirement(reqType: string, id: string, name: string, version: string)

  /** The portability manifest: `__inputs`, `__elements` (always empty) and
      `__requires`. */
  datatype Manifest = Manifest(inputs: seq<Input>, requirements: seq<Requirement>)

  datatype Dashboard = Dashboard(
    manifest: Option<Manifest>,
    editable: bool,
    panels: seq<Panel>,
    templating: seq<TemplateVar>,
    title: string,
    uid: string,
    tags: seq<string>,
    schemaVersion: int)
}
