/** `generators/gen-cloudflared.py`: the panel factories and the dashboard
    document of the Cloudflare Tunnel dashboard over Prometheus metrics. */
module Cloudflared {
  import opened Grafana
  import RowLayout
  import Strings

  /** `DS`: the Prometheus datasource, addressed by an input variable on
      export. */
  function DS(mode: Mode): (r: Datasource)
    ensures r.pluginType == "prometheus"
    ensures r.uid == (if mode == Export then "${DS_PROMETHEUS}" else "prometheus")
  {
    match mode
    case Local => Datasource("prometheus", "prometheus")
    case Export => Datasource("prometheus", "${DS_PROMETHEUS}")
  }

  /** Rows kept expanded; every other row collapses. */
  const OPEN_ROWS: set<string> := {"Tunnel Overview"}

  /** `t(expr, legend, ref)`: a Prometheus query target with no query type. */
  function T(mode: Mode, expr: string, legend: string, ref: RefId := REF_A): (r: Target)
    ensures r.datasource == DS(mode) && r.expr == expr && r.legendFormat == legend && r.refId == ref
    ensures r.queryType.None? && !r.instant && !r.tableFormat
  {
    Target(DS(mode), expr, legend, ref, None, false, false)
  }

  /** `stat_panel(...)`: decimals are set whenever given, zero included. */
  function StatPanel(mode: Mode, id: int, title: string, expr: string, legend: string, x: int, y: int,
                     w: int := 6, unit: string := "short", thresholds: Option<seq<Step>> := None,
                     decimals: Option<int> := None, desc: string := "", mappings: seq<Mapping> := []): (r: Panel)
    ensures r.Viz? && r.kind == Stat && r.id == id && r.title == title
    ensures r.gridPos == GridPos(4, w, x, y)
    ensures r.fieldConfig.Some? && r.fieldConfig.value.unit == Some(unit)
    ensures r.fieldConfig.value.decimals == decimals
    ensures r.fieldConfig.value.mappings == mappings
    ensures unit == "percent" ==> r.fieldConfig.value.min == Some(0) && r.fieldConfig.value.max == Some(100)
    ensures unit != "percent" ==> r.fieldConfig.value.min.None? && r.fieldConfig.value.max.None?
    ensures (thresholds.None? || thresholds.value == []) ==> r.fieldConfig.value.thresholds == [Step("green", None)]
    ensures thresholds.Some? && thresholds.value != [] ==> r.fieldConfig.value.thresholds == thresholds.value
    ensures r.fieldConfig.value.custom.None? && r.fieldConfig.value.overrides == []
    ensures r.options == StatOptions("auto")
    ensures r.datasource == DS(mode) && r.targets == [T(mode, expr, legend)] && r.transformations == []
    ensures r.description == Describe(desc)
  {
    var percent := unit == "percent";
    Viz(Stat, id, title, GridPos(4, w, x, y), DS(mode),
        Some(FieldConfig(Some(unit), if percent then Some(0) else None, if percent then Some(100) else None,
                         decimals, OrDefault(thresholds, BASELINE), mappings, None, [])),
        StatOptions("auto"),
        [T(mode, expr, legend)],
        [], Describe(desc))
  }

  /** `ts_panel(...)`: unstacked unless asked; a missing `legend_calcs`
      gets the default, an explicit empty list is kept. */
  function TsPanel(mode: Mode, id: int, title: string, targets: seq<Target>, x: int, y: int,
                   w: int := 12, h: int := 8, unit: string := "short", stack: bool := false,
                   overrides: seq<Override> := [], fill: int := 20, desc: string := "",
                   legendCalcs: Option<seq<string>> := None): (r: Panel)
    ensures r.Viz? && r.kind == Timeseries && r.id == id && r.title == title && r.targets == targets
    ensures r.gridPos == GridPos(h, w, x, y)
    ensures r.fieldConfig.Some? && r.fieldConfig.value.custom.Some? && r.fieldConfig.value.overrides == overrides
    ensures r.fieldConfig.value.unit == Some(unit)
    ensures r.fieldConfig.value.custom.value == SeriesStyle("line", fill, "auto", if stack then "normal" else "none")
    ensures r.fieldConfig.value.min.None? && r.fieldConfig.value.max.None? && r.fieldConfig.value.decimals.None?
    ensures r.fieldConfig.value.thresholds == BASELINE && r.fieldConfig.value.mappings == []
    ensures r.datasource == DS(mode) && r.transformations == []
    ensures r.options.SeriesOptions?
    ensures legendCalcs.Some? ==> r.options.legendCalcs == legendCalcs.value
    ensures legendCalcs.None? ==> r.options.legendCalcs == ["mean", "max"]
    ensures r.description == Describe(desc)
  {
    Viz(Timeseries, id, title, GridPos(h, w, x, y), DS(mode),
        Some(FieldConfig(Some(unit), None, None, None, BASELINE, [],
                         Some(SeriesStyle("line", fill, "auto", if stack then "normal" else "none")), overrides)),
        SeriesOptions(IfNotNone(legendCalcs, ["mean", "max"])),
        targets, [], Describe(desc))
  }

  /** `bar_panel(...)`: the stacked time-series panel of the same
      arguments, its `custom` block patched to bars. */
  function BarPanel(mode: Mode, id: int, title: string, targets: seq<Target>, x: int, y: int,
                    w: int := 12, h: int := 8, unit: string := "short", stack: bool := true,
                    overrides: seq<Override> := [], desc: string := ""): (r: Panel)
    ensures var ts := TsPanel(mode, id, title, targets, x, y, w, h, unit, stack, overrides, desc := desc);
      && r.Viz? && r.fieldConfig.Some? && r.fieldConfig.value.custom.Some?
      && r.fieldConfig.value.custom.value
           == ts.fieldConfig.value.custom.value.(drawStyle := "bars", fillOpacity := 80, showPoints := "never")
      && r.fieldConfig.value == ts.fieldConfig.value.(custom := r.fieldConfig.value.custom)
      && r == ts.(fieldConfig := r.fieldConfig)
  {
    var p := TsPanel(mode, id, title, targets, x, y, w, h, unit, stack, overrides, desc := desc);
    var fc := p.fieldConfig.value;
    var custom := fc.custom.value.(drawStyle := "bars", fillOpacity := 80, showPoints := "never");
    p.(fieldConfig := Some(fc.(custom := Some(custom))))
  }

  /** The gauge's default bands: green, yellow from 60, red from 85. */
  const GAUGE_STEPS: seq<Step> := [Step("green", None), Step("yellow", Some(60.0)), Step("red", Some(85.0))]

  /** `gauge_panel(...)`: bounds always set, 0 to 100 unless given. */
  function GaugePanel(mode: Mode, id: int, title: string, expr: string, legend: string, x: int, y: int,
                      w: int := 6, h: int := 6, unit: string := "percent", thresholds: Option<seq<Step>> := None,
                      decimals: Option<int> := None, desc: string := "", minVal: int := 0, maxVal: int := 100): (r: Panel)
    ensures r.Viz? && r.kind == Gauge && r.id == id && r.title == title && r.gridPos == GridPos(h, w, x, y)
    ensures r.fieldConfig.Some? && r.fieldConfig.value.unit == Some(unit)
    ensures r.fieldConfig.value.min == Some(minVal) && r.fieldConfig.value.max == Some(maxVal)
    ensures r.fieldConfig.value.decimals == decimals
    ensures (thresholds.None? || thresholds.value == []) ==> r.fieldConfig.value.thresholds == GAUGE_STEPS
    ensures thresholds.Some? && thresholds.value != [] ==> r.fieldConfig.value.thresholds == thresholds.value
    ensures r.fieldConfig.value.mappings == [] && r.fieldConfig.value.custom.None? && r.fieldConfig.value.overrides == []
    ensures r.options == GaugeOptions
    ensures r.datasource == DS(mode) && r.targets == [T(mode, expr, legend)] && r.transformations == []
    ensures r.description == Describe(desc)
  {
    Viz(Gauge, id, title, GridPos(h, w, x, y), DS(mode),
        Some(FieldConfig(Some(unit), Some(minVal), Some(maxVal), decimals, OrDefault(thresholds, GAUGE_STEPS), [], None, [])),
        GaugeOptions,
        [T(mode, expr, legend)],
        [], Describe(desc))
  }

  /** `table_panel(...)`: one instant table query, sorted by its value
      column, with no overrides and no transformations. */
  function TablePanel(mode: Mode, id: int, title: string, expr: string, legend: string, x: int, y: int,
                      w: int := 12, h: int := 8, desc: string := ""): (r: Panel)
    ensures r.Viz? && r.kind == Table && r.id == id && r.title == title && r.gridPos == GridPos(h, w, x, y)
    ensures r.fieldConfig.Some? && r.fieldConfig.value.overrides == []
    ensures r.fieldConfig.value.unit.None? && r.fieldConfig.value.thresholds == BASELINE
    ensures r.fieldConfig.value.mappings == [] && r.fieldConfig.value.custom.None?
    ensures r.datasource == DS(mode)
    ensures r.options == TableOptions("Value")
    ensures r.targets == [Target(DS(mode), expr, legend, REF_A, None, true, true)]
    ensures r.transformations == []
    ensures r.description == Describe(desc)
  {
    Viz(Table, id, title, GridPos(h, w, x, y), DS(mode),
        Some(FieldConfig(None, None, None, None, BASELINE, [], None, [])),
        TableOptions("Value"),
        [Target(DS(mode), expr, legend, REF_A, None, true, true)],
        [], Describe(desc))
  }

  /** `text_panel(...)`: markdown content, no field config and no queries. */
  function TextPanel(mode: Mode, id: int, content: string, x: int, y: int,
                     w: int := 24, h: int := 4, title: string := "", desc: string := ""): (r: Panel)
    ensures r.Viz? && r.kind == Text && r.id == id && r.title == title && r.gridPos == GridPos(h, w, x, y)
    ensures r.fieldConfig.None? && r.targets == [] && r.transformations == []
    ensures r.datasource == DS(mode)
    ensures r.options == TextOptions(content)
    ensures r.description == Describe(desc)
  {
    Viz(Text, id, title, GridPos(h, w, x, y), DS(mode), None, TextOptions(content), [], [], Describe(desc))
  }

  /** The version stat's patch: show the series name instead of its value.
      Nothing else about the panel changes. */
  function WithTextMode(p: Panel, textMode: string): (r: Panel)
    requires p.Viz? && p.options.StatOptions?
    ensures r.Viz? && r.options == StatOptions(textMode)
    ensures r.(options := p.options) == p
  {
    p.(options := StatOptions(textMode))
  }

  /** The congestion-state panel's patch: replace the value mappings.
      Nothing else about the panel changes. */
  function WithMappings(p: Panel, mappings: seq<Mapping>): (r: Panel)
    requires p.Viz? && p.fieldConfig.Some?
    ensures r.Viz? && r.fieldConfig.Some? && r.fieldConfig.value.mappings == mappings
    ensures r.fieldConfig.value.(mappings := p.fieldConfig.value.mappings) == p.fieldConfig.value
    ensures r.(fieldConfig := p.fieldConfig) == p
  {
    p.(fieldConfig := Some(p.fieldConfig.value.(mappings := mappings)))
  }

  /** The text-mode patch commutes with re-addressing, so the patched
      stat follows the export switch like the others. */
  lemma TextModeCommutesWithRetarget(p: Panel, ds: Datasource, textMode: string)
    requires p.Viz? && p.options.StatOptions?
    ensures Retarget(WithTextMode(p, textMode), ds) == WithTextMode(Retarget(p, ds), textMode)
  {
  }

  /** The mappings patch commutes with re-addressing on any panel that has
      a field config, time series included. */
  lemma MappingsCommuteWithRetarget(p: Panel, ds: Datasource, mappings: seq<Mapping>)
    requires p.Viz? && p.fieldConfig.Some?
    ensures Retarget(WithMappings(p, mappings), ds) == WithMappings(Retarget(p, ds), mappings)
  {
  }

  /** The congestion-state panel: a time series whose only change from
      `ts_panel` is its value mappings; built for export it is the local
      panel re-addressed. */
  lemma CongestionPanelExport(id: int, title: string, targets: seq<Target>, x: int, y: int, desc: string,
                              mappings: seq<Mapping>)
    ensures var patched := WithMappings(TsPanel(Local, id, title, targets, x, y, 8, fill := 5, desc := desc), mappings);
      && patched.kind == Timeseries && patched.fieldConfig.value.mappings == mappings
      && patched.(fieldConfig := Some(patched.fieldConfig.value.(mappings := [])))
           == TsPanel(Local, id, title, targets, x, y, 8, fill := 5, desc := desc)
      && WithMappings(TsPanel(Export, id, title, RetargetTargets(targets, DS(Export)), x, y, 8, fill := 5, desc := desc), mappings)
           == Retarget(patched, DS(Export))
  {
    var ts := TsPanel(Local, id, title, targets, x, y, 8, fill := 5, desc := desc);
    MappingsCommuteWithRetarget(ts, DS(Export), mappings);
    FactoriesIgnoreModeButDatasource(id, title, "", "", x, y, 8, 8, "short", false, 5, None, None, [], [],
                                     None, 0, 100, targets, desc, REF_A);
  }

  /** In export mode every factory builds the same panel, whatever its
      arguments, only addressed to the exported datasource; the targets a
      caller builds with `t` are re-addressed the same way. */
  lemma FactoriesIgnoreModeButDatasource(id: int, title: string, expr: string, legend: string, x: int, y: int,
                                         w: int, h: int, unit: string, stack: bool, fill: int,
                                         thresholds: Option<seq<Step>>, decimals: Option<int>, mappings: seq<Mapping>,
                                         overrides: seq<Override>, legendCalcs: Option<seq<string>>,
                                         minVal: int, maxVal: int, targets: seq<Target>, desc: string, ref: RefId)
    ensures StatPanel(Export, id, title, expr, legend, x, y, w, unit, thresholds, decimals, desc, mappings)
      == Retarget(StatPanel(Local, id, title, expr, legend, x, y, w, unit, thresholds, decimals, desc, mappings), DS(Export))
    ensures TsPanel(Export, id, title, RetargetTargets(targets, DS(Export)), x, y, w, h, unit, stack, overrides, fill, desc, legendCalcs)
      == Retarget(TsPanel(Local, id, title, targets, x, y, w, h, unit, stack, overrides, fill, desc, legendCalcs), DS(Export))
    ensures BarPanel(Export, id, title, RetargetTargets(targets, DS(Export)), x, y, w, h, unit, stack, overrides, desc)
      == Retarget(BarPanel(Local, id, title, targets, x, y, w, h, unit, stack, overrides, desc), DS(Export))
    ensures GaugePanel(Export, id, title, expr, legend, x, y, w, h, unit, thresholds, decimals, desc, minVal, maxVal)
      == Retarget(GaugePanel(Local, id, title, expr, legend, x, y, w, h, unit, thresholds, decimals, desc, minVal, maxVal), DS(Export))
    ensures TablePanel(Export, id, title, expr, legend, x, y, w, h, desc)
      == Retarget(TablePanel(Local, id, title, expr, legend, x, y, w, h, desc), DS(Export))
    ensures TextPanel(Export, id, expr, x, y, w, h, title, desc)
      == Retarget(TextPanel(Local, id, expr, x, y, w, h, title, desc), DS(Export))
    ensures T(Export, expr, legend, ref) == T(Local, expr, legend, ref).(datasource := DS(Export))
  {
  }

  // ---------------------------------------------------------------------
  // Layout and document.

  /** `collapse_rows` with this dashboard's open rows. */
  method CollapseRows(panels: seq<Panel>) returns (result: seq<Panel>)
    ensures result == RowLayout.Layout(panels, OPEN_ROWS)
  {
    result := RowLayout.CollapseRows(panels, OPEN_ROWS);
  }

  /** "Tunnel Overview" stays open with its panels beside it; a following
      row collapses and takes its panels inside. */
  lemma TunnelOverviewOpenOthersCollapse(overview: Panel, a: Panel, traffic: Panel, b: Panel, c: Panel)
    requires overview.Row? && overview.title == "Tunnel Overview"
    requires traffic.Row? && traffic.title == "Traffic"
    requires !a.Row? && !b.Row? && !c.Row?
    ensures RowLayout.Layout([overview, a, traffic, b, c], OPEN_ROWS)
      == [overview, a, traffic.(collapsed := true, panels := [b, c])]
  {
    RowLayout.LeadingPanelsStayTopLevel([], overview, [a, traffic, b, c], OPEN_ROWS);
    RowLayout.RowGroupFlush(overview, [a], traffic, [b, c], OPEN_ROWS);
    RowLayout.LastRowFlush(traffic, [b, c], OPEN_ROWS);
    assert [a, traffic, b, c] == [a] + [traffic] + [b, c];
  }

  /** `templating.list`: the job picker queries the datasource; the port
      and DNS-timeout pickers are fixed choices. */
  function Templating(mode: Mode): (r: seq<TemplateVar>)
    ensures |r| == 3
    ensures r[0] == TemplateVar("job", "Job", Query, [], "label_values(cloudflared_tunnel_ha_connections, job)", Some(DS(mode)))
    ensures r[1].name == "available_ports" && r[1].labelText == "Available Ports" && r[1].kind == Custom
    ensures r[2].name == "dns_timeout" && r[2].labelText == "DNS Timeout (s)" && r[2].kind == Custom
    ensures r[1].datasource.None? && r[2].datasource.None?
    ensures OptionValues(r[1].options) == ["50000", "30000", "16384"] && r[1].query == "50000,30000,16384"
    ensures OptionValues(r[2].options) == ["5", "10", "30"] && r[2].query == "5,10,30"
  {
    [TemplateVar("job", "Job", Query, [], "label_values(cloudflared_tunnel_ha_connections, job)", Some(DS(mode))),
     TemplateVar("available_ports", "Available Ports", Custom,
                 [VarOption(true, "50000", "50000"), VarOption(false, "30000", "30000"), VarOption(false, "16384", "16384")],
                 "50000,30000,16384", None),
     TemplateVar("dns_timeout", "DNS Timeout (s)", Custom,
                 [VarOption(true, "5", "5"), VarOption(false, "10", "10"), VarOption(false, "30", "30")],
                 "5,10,30", None)]
  }

  /** The port and DNS-timeout pickers each offer their values with the
      first (the recommended default) selected, and their query is the
      same values joined by commas. */
  lemma FixedChoicesListOptions(mode: Mode)
    ensures forall i :: 1 <= i < 3 ==>
      ListsOwnOptions(Templating(mode)[i], Strings.Join(OptionValues(Templating(mode)[i].options), ","))
  {
    var r := Templating(mode);
    Strings.JoinThree("50000", "30000", "16384", ",");
    Strings.JoinThree("5", "10", "30", ",");
    assert "50000" + "," + "30000" + "," + "16384" == "50000,30000,16384";
    assert "5" + "," + "10" + "," + "30" == "5,10,30";
  }

  const MANIFEST := Manifest(
    [Input("DS_PROMETHEUS", "Prometheus", "prometheus")],
    [Requirement("grafana", "grafana", "Grafana", "11.0.0"),
     Requirement("datasource", "prometheus", "Prometheus", "1.0.0"),
     Requirement("panel", "gauge", "Gauge", ""),
     Requirement("panel", "stat", "Stat", ""),
     Requirement("panel", "table", "Table", ""),
     Requirement("panel", "text", "Text", ""),
     Requirement("panel", "timeseries", "Time series", "")])

  /** The dashboard document built from the emitted panels; its uid is the
      same in both modes. */
  function BuildDashboard(mode: Mode, panels: seq<Panel>): (r: Dashboard)
    ensures r.manifest.Some? <==> mode == Export
    ensures r.editable <==> mode == Export
    ensures r.panels == RowLayout.Layout(panels, OPEN_ROWS)
    ensures r.templating == Templating(mode)
    ensures r.title == "Cloudflare Tunnel" && r.uid == "cloudflared-tunnel"
  {
    Dashboard(if mode == Export then Some(MANIFEST) else None,
              mode == Export,
              RowLayout.Layout(panels, OPEN_ROWS),
              Templating(mode),
              "Cloudflare Tunnel", "cloudflared-tunnel", ["cloudflare", "tunnel", "cloudflared"], 39)
  }

  /** Switching to export mode, with panels built for the exported
      datasource, re-addresses every datasource reference (the job
      variable's included), makes the dashboard editable and adds the
      manifest; nothing else differs. */
  lemma ExportOnlyReaddresses(panels: seq<Panel>)
    ensures var localDoc := BuildDashboard(Local, panels);
      var exportDoc := BuildDashboard(Export, RetargetAll(panels, DS(Export)));
      && exportDoc.panels == RetargetAll(localDoc.panels, DS(Export))
      && Ids(exportDoc.panels) == Ids(localDoc.panels)
      && Grids(exportDoc.panels) == Grids(localDoc.panels)
      && |exportDoc.templating| == |localDoc.templating|
      && (forall i :: 0 <= i < |localDoc.templating| ==>
            exportDoc.templating[i] == RetargetVar(localDoc.templating[i], DS(Export)))
      && |localDoc.templating| == 3 && localDoc.templating[0].name == "job"
      && localDoc.templating[0].datasource == Some(DS(Local)) && exportDoc.templating[0].datasource == Some(DS(Export))
      && localDoc.manifest.None? && exportDoc.manifest == Some(MANIFEST)
      && !localDoc.editable && exportDoc.editable
      && exportDoc.(manifest := None, editable := false, panels := localDoc.panels, templating := localDoc.templating) == localDoc
  {
    RowLayout.LayoutCommutesWithRetarget(panels, OPEN_ROWS, DS(Export));
  }
}
