/** `generators/gen-cloudflare-logpush.py`: LogQL query fragments over the
    Logpush datasets, the panel factories, and the dashboard document for
    the Loki datasource. */
module Logpush {
  import opened Grafana
  import opened Strings
  import RowLayout

  /** `DS`: the Loki datasource, addressed by an input variable on export. */
  function DS(mode: Mode): (r: Datasource)
    ensures r.pluginType == "loki"
    ensures r.uid == (if mode == Export then "${DS_LOKI}" else "loki")
  {
    match mode
    case Local => Datasource("loki", "loki")
    case Export => Datasource("loki", "${DS_LOKI}")
  }

  /** Rows kept expanded; every other row collapses. */
  const OPEN_ROWS: set<string> := {"Overview"}

  // ---------------------------------------------------------------------
  // Query fragments.

  const HTTP_SELECTOR := "{job=\"cloudflare-logpush\", dataset=\"http_requests\"}"
  const FW_SELECTOR := "{job=\"cloudflare-logpush\", dataset=\"firewall_events\"}"
  const WK_SELECTOR := "{job=\"cloudflare-logpush\", dataset=\"workers_trace_events\"}"

  /** Fields the HTTP template-variable filters read: always extracted. */
  const HTTP_FILTER_FIELDS: seq<string> :=
    ["ClientRequestHost", "ClientCountry", "ClientRequestPath", "ClientIP", "JA4", "ClientASN", "EdgeColoCode", "ZoneName"]
  const HTTP_FILTERS :=
    "| ZoneName =~ \"$zone\" | ClientRequestHost =~ \"$host\" | ClientCountry =~ \"$country\" | ClientRequestPath =~ \"$path\" | ClientIP =~ \"$ip\" | JA4 =~ \"$ja4\" | ClientASN =~ \"$asn\" | EdgeColoCode =~ \"$colo\""

  /** Fields the firewall template-variable filters read: always extracted. */
  const FW_FILTER_FIELDS: seq<string> := ["ClientRequestHost", "ClientIP"]
  const FW_FILTERS := "| ClientRequestHost =~ \"$zone\" | ClientRequestHost =~ \"$host\" | ClientIP =~ \"$ip\""

  /** The `| json` field list of `http(*fields)`. */
  function HttpFields(fields: seq<string>): (r: seq<string>)
    ensures StrictlySorted(r)
    ensures forall f :: f in r <==> f in HTTP_FILTER_FIELDS || f in fields
  {
    SortedSet(HTTP_FILTER_FIELDS + fields)
  }

  /** `http(*fields)`: the HTTP stream selector, the field list, then every
      HTTP filter, even when no field is requested. */
  function Http(fields: seq<string>): (r: string)
    ensures StartsWith(r, HTTP_SELECTOR + " | json ")
    ensures EndsWith(r, " " + HTTP_FILTERS)
    ensures r == HTTP_SELECTOR + " | json " + Join(HttpFields(fields), ", ") + (" " + HTTP_FILTERS)
  {
    Affixes(HTTP_SELECTOR + " | json ", Join(HttpFields(fields), ", "), " " + HTTP_FILTERS);
    HTTP_SELECTOR + " | json " + Join(HttpFields(fields), ", ") + (" " + HTTP_FILTERS)
  }

  /** The `| json` field list of `fw(*fields)`. */
  function FwFields(fields: seq<string>): (r: seq<string>)
    ensures StrictlySorted(r)
    ensures forall f :: f in r <==> f in FW_FILTER_FIELDS || f in fields
  {
    SortedSet(FW_FILTER_FIELDS + fields)
  }

  /** `fw(*fields)`: the firewall stream selector, the field list, then
      every firewall filter. */
  function Fw(fields: seq<string>): (r: string)
    ensures StartsWith(r, FW_SELECTOR + " | json ")
    ensures EndsWith(r, " " + FW_FILTERS)
    ensures r == FW_SELECTOR + " | json " + Join(FwFields(fields), ", ") + (" " + FW_FILTERS)
  {
    Affixes(FW_SELECTOR + " | json ", Join(FwFields(fields), ", "), " " + FW_FILTERS);
    FW_SELECTOR + " | json " + Join(FwFields(fields), ", ") + (" " + FW_FILTERS)
  }

  /** `wk(*fields)`: the Workers stream selector and, only when fields are
      requested, their sorted distinct list; Workers has no filters. */
  function Wk(fields: seq<string>): (r: string)
    ensures StartsWith(r, WK_SELECTOR + " | json")
    ensures fields == [] ==> r == WK_SELECTOR + " | json"
    ensures fields != [] ==> r == WK_SELECTOR + " | json " + Join(SortedSet(fields), ", ")
  {
    if fields != [] then WK_SELECTOR + " | json " + Join(SortedSet(fields), ", ")
    else WK_SELECTOR + " | json"
  }

  /** Requests naming the same fields, in any order and with any repetition,
      give the same query text. */
  lemma HttpCanonical(a: seq<string>, b: seq<string>)
    requires forall f :: f in a <==> f in b
    ensures HttpFields(a) == HttpFields(b)
    ensures Http(a) == Http(b)
  {
    SortedUnique(HttpFields(a), HttpFields(b));
  }

  lemma FwCanonical(a: seq<string>, b: seq<string>)
    requires forall f :: f in a <==> f in b
    ensures FwFields(a) == FwFields(b)
    ensures Fw(a) == Fw(b)
  {
    SortedUnique(FwFields(a), FwFields(b));
  }

  lemma WkCanonical(a: seq<string>, b: seq<string>)
    requires forall f :: f in a <==> f in b
    ensures Wk(a) == Wk(b)
  {
    SortedSetCanonical(a, b);
    assert a != [] ==> a[0] in a;
    assert b != [] ==> b[0] in b;
  }

  /** Requesting a field the filters already extract changes nothing. */
  lemma HttpFilterFieldsAbsorbed(fields: seq<string>, f: string)
    requires f in HTTP_FILTER_FIELDS
    ensures Http(fields + [f]) == Http(fields)
  {
    SortedUnique(HttpFields(fields + [f]), HttpFields(fields));
  }

  /** The field list of `http("ClientRequestMethod")`: the eight filter
      fields and the requested one, in Python's string order. */
  lemma HttpFieldsExample()
    ensures HttpFields(["ClientRequestMethod"]) ==
      ["ClientASN", "ClientCountry", "ClientIP", "ClientRequestHost", "ClientRequestMethod",
       "ClientRequestPath", "EdgeColoCode", "JA4", "ZoneName"]
  {
    var expected := ["ClientASN", "ClientCountry", "ClientIP", "ClientRequestHost", "ClientRequestMethod",
                     "ClientRequestPath", "EdgeColoCode", "JA4", "ZoneName"];
    forall k | 0 <= k < |expected| - 1 ensures Less(expected[k], expected[k + 1]) {
      if k == 0 { LessAt(expected[0], expected[1], 6); }
      else if k == 1 { LessAt(expected[1], expected[2], 6); }
      else if k == 2 { LessAt(expected[2], expected[3], 6); }
      else if k == 3 { LessAt(expected[3], expected[4], 13); }
      else if k == 4 { LessAt(expected[4], expected[5], 13); }
      else { LessAt(expected[k], expected[k + 1], 0); }
    }
    ChainSorted(expected);
    SortedUnique(HttpFields(["ClientRequestMethod"]), expected);
  }

  // ---------------------------------------------------------------------
  // Targets.

  /** `t(expr, legend, ref)`: a ranged query target. */
  function T(mode: Mode, expr: string, legend: string, ref: RefId := REF_A): (r: Target)
    ensures r.datasource == DS(mode) && r.expr == expr && r.legendFormat == legend && r.refId == ref
    ensures r.queryType == Some(Range) && !r.instant && !r.tableFormat
  {
    Target(DS(mode), expr, legend, ref, Some(Range), false, false)
  }

  /** The aggregations of `_perf_targets`, in target order. */
  const PERF_AGGREGATES: seq<string> := [
    "sum(avg_over_time(",
    "sum(quantile_over_time(0.50, ",
    "sum(quantile_over_time(0.75, ",
    "sum(quantile_over_time(0.90, ",
    "sum(quantile_over_time(0.95, ",
    "sum(quantile_over_time(0.99, "]

  const PERF_LEGENDS: seq<string> := ["Avg", "p50 (median)", "p75", "p90", "p95", "p99"]

  /** The text `_perf_targets` puts between the HTTP fragment and `unwrap`. */
  function PreFilterText(preFilter: string): string
  {
    if preFilter != "" then " " + preFilter else ""
  }

  /** `_perf_targets(field, ref_start, pre_filter)`: average and five
      percentiles of `field`, each over `http(field)`, with refIds running
      from `ref_start`. Seven refIds are computed (one unused), so `chr`
      fails when the seventh is past the last code point. */
  function PerfTargets(mode: Mode, field: string, refStart: RefId := REF_A, preFilter: string := ""): (r: Result<seq<Target>>)
    ensures r.Success? <==> refStart + 6 <= MAX_CODE_POINT
    ensures r.Success? ==> |r.value| == 6 && forall i :: 0 <= i < 6 ==>
      r.value[i] == T(mode, PERF_AGGREGATES[i] + Http([field]) + PreFilterText(preFilter) + " | unwrap " + field + " [$__auto]))",
                      PERF_LEGENDS[i], refStart + i)
  {
    if refStart + 6 > MAX_CODE_POINT then Failure("chr() arg not in range(0x110000)")
    else
      Success(seq(6, i requires 0 <= i < 6 =>
        T(mode, PERF_AGGREGATES[i] + Http([field]) + PreFilterText(preFilter) + " | unwrap " + field + " [$__auto]))",
          PERF_LEGENDS[i], refStart + i)))
  }

  /** With the default start the six refIds are A to F, all distinct. */
  lemma PerfTargetsRefIds(mode: Mode, field: string, preFilter: string)
    ensures PerfTargets(mode, field, REF_A, preFilter).Success?
    ensures forall i, j :: 0 <= i < j < 6 ==>
      PerfTargets(mode, field, REF_A, preFilter).value[i].refId != PerfTargets(mode, field, REF_A, preFilter).value[j].refId
    ensures PerfTargets(mode, field, REF_A, preFilter).value[5].refId == 'F' as nat
  {
  }

  // ---------------------------------------------------------------------
  // Panel factories.

  /** `stat_panel(...)`; its `instant` argument is not read. */
  function StatPanel(mode: Mode, id: int, title: string, expr: string, legend: string, x: int, y: int,
                     w: int := 6, unit: string := "short", thresholds: Option<seq<Step>> := None,
                     desc: string := ""): (r: Panel)
    ensures r.Viz? && r.kind == Stat && r.id == id && r.title == title
    ensures r.gridPos == GridPos(4, w, x, y)
    ensures r.fieldConfig.Some? && r.fieldConfig.value.unit == Some(unit)
    ensures unit == "percent" ==> r.fieldConfig.value.min == Some(0) && r.fieldConfig.value.max == Some(100)
    ensures unit != "percent" ==> r.fieldConfig.value.min.None? && r.fieldConfig.value.max.None?
    ensures (thresholds.None? || thresholds.value == []) ==> r.fieldConfig.value.thresholds == [Step("green", None)]
    ensures thresholds.Some? && thresholds.value != [] ==> r.fieldConfig.value.thresholds == thresholds.value
    ensures r.fieldConfig.value.decimals.None? && r.fieldConfig.value.mappings == []
    ensures r.fieldConfig.value.custom.None? && r.fieldConfig.value.overrides == []
    ensures r.options == StatOptions("auto")
    ensures r.datasource == DS(mode) && r.transformations == []
    ensures r.targets == [Target(DS(mode), expr, legend, REF_A, Some(Instant), true, false)]
    ensures r.description == Describe(desc)
  {
    var percent := unit == "percent";
    Viz(Stat, id, title, GridPos(4, w, x, y), DS(mode),
        Some(FieldConfig(Some(unit), if percent then Some(0) else None, if percent then Some(100) else None,
                         None, OrDefault(thresholds, BASELINE), [], None, [])),
        StatOptions("auto"),
        [Target(DS(mode), expr, legend, REF_A, Some(Instant), true, false)],
        [], Describe(desc))
  }

  /** `ts_panel(...)`; an empty `legend_calcs` falls back to the default
      like a missing one does (`legend_calcs or [...]`). */
  function TsPanel(mode: Mode, id: int, title: string, targets: seq<Target>, x: int, y: int,
                   w: int := 12, h: int := 8, unit: string := "short", stack: bool := true,
                   overrides: seq<Override> := [], fill: int := 20, legendCalcs: Option<seq<string>> := None,
                   desc: string := ""): (r: Panel)
    ensures r.Viz? && r.kind == Timeseries && r.id == id && r.title == title && r.targets == targets
    ensures r.gridPos == GridPos(h, w, x, y)
    ensures r.fieldConfig.Some? && r.fieldConfig.value.unit == Some(unit)
    ensures r.fieldConfig.value.overrides == overrides
    ensures r.fieldConfig.value.custom == Some(SeriesStyle("line", fill, "auto", if stack then "normal" else "none"))
    ensures r.fieldConfig.value.min.None? && r.fieldConfig.value.max.None? && r.fieldConfig.value.decimals.None?
    ensures r.fieldConfig.value.thresholds == BASELINE && r.fieldConfig.value.mappings == []
    ensures r.datasource == DS(mode) && r.transformations == []
    ensures r.options.SeriesOptions? && r.options.legendCalcs != []
    ensures legendCalcs.Some? && legendCalcs.value != [] ==> r.options.legendCalcs == legendCalcs.value
    ensures (legendCalcs.None? || legendCalcs.value == []) ==> r.options.legendCalcs == ["sum", "mean"]
    ensures r.description == Describe(desc)
  {
    Viz(Timeseries, id, title, GridPos(h, w, x, y), DS(mode),
        Some(FieldConfig(Some(unit), None, None, None, BASELINE, [],
                         Some(SeriesStyle("line", fill, "auto", if stack then "normal" else "none")), overrides)),
        SeriesOptions(OrDefault(legendCalcs, ["sum", "mean"])),
        targets, [], Describe(desc))
  }

  /** `bar_panel(...)`: the time-series panel of the same arguments with
      its `custom` block patched to bars. */
  function BarPanel(mode: Mode, id: int, title: string, targets: seq<Target>, x: int, y: int,
                    w: int := 12, h: int := 8, unit: string := "short", stack: bool := true,
                    overrides: seq<Override> := [], desc: string := ""): (r: Panel)
    ensures var ts := TsPanel(mode, id, title, targets, x, y, w, h, unit, stack, overrides, desc := desc);
      && r.Viz? && r.fieldConfig.Some? && r.fieldConfig.value.custom.Some?
      && r.fieldConfig.value.custom.value
           == ts.fieldConfig.value.custom.value.(drawStyle := "bars", fillOpacity := 80, showPoints := "never")
      && r.fieldConfig.value == ts.fieldConfig.value.(custom := r.fieldConfig.value.custom)
      && r == ts.(fieldConfig := r.fieldConfig)
  {
    var p := TsPanel(mode, id, title, targets, x, y, w, h, unit, stack, overrides);
    var fc := p.fieldConfig.value;
    var custom := fc.custom.value.(drawStyle := "bars", fillOpacity := 80, showPoints := "never");
    p.(fieldConfig := Some(fc.(custom := Some(custom))), description := Describe(desc))
  }

  /** The overrides every table starts with: the count column and the
      hidden time column. */
  const TABLE_OVERRIDES: seq<Override> := [
    Override(ByName("Value #A"), [Width(100), DisplayName("Count"), GaugeCell]),
    Override(ByName("Time"), [Hidden])]

  function TableDefaults(overrides: seq<Override>): FieldConfig
  {
    FieldConfig(None, None, None, None, BASELINE, [], None, overrides)
  }

  /** `table_panel(...)`: one instant table query, sorted by its value. */
  function TablePanel(mode: Mode, id: int, title: string, expr: string, legend: string, x: int, y: int,
                      w: int := 8, h: int := 8, extraOverrides: seq<Override> := [], desc: string := ""): (r: Panel)
    ensures r.Viz? && r.kind == Table && r.id == id && r.title == title && r.gridPos == GridPos(h, w, x, y)
    ensures r.fieldConfig.Some? && r.fieldConfig.value.overrides == TABLE_OVERRIDES + extraOverrides
    ensures r.fieldConfig.value.unit.None? && r.fieldConfig.value.thresholds == BASELINE
    ensures r.fieldConfig.value.mappings == []
    ensures r.datasource == DS(mode) && r.options == TableOptions("Count")
    ensures r.targets == [Target(DS(mode), expr, legend, REF_A, None, true, true)]
    ensures r.transformations == [SortBy("Value #A", true)]
    ensures r.description == Describe(desc)
  {
    Viz(Table, id, title, GridPos(h, w, x, y), DS(mode),
        Some(TableDefaults(TABLE_OVERRIDES + extraOverrides)),
        TableOptions("Count"),
        [Target(DS(mode), expr, legend, REF_A, None, true, true)],
        [SortBy("Value #A", true)], Describe(desc))
  }

  /** The firewall lookup query B of the ASN table: one description per ASN. */
  function AsnLookupExpr(): string
  {
    "topk(1, sum by (ClientASN, ClientASNDescription) (count_over_time(" + Fw(["ClientASN", "ClientASNDescription"]) + " [$__range])))"
  }

  /** The organize step of the ASN join: hide the time column and query B's
      value, put ASN, name and count in that order, and rename the name. */
  const ASN_ORGANIZE: Transformation := Organize(
    {"Time", "Value #B"},
    map["ClientASN" := 0, "ClientASNDescription" := 1, "Value #A" := 2],
    map["ClientASNDescription" := "ASN Name"])

  /** `asn_lookup_table_panel(...)`: query A counts HTTP requests per
      ClientASN, query B looks up each ClientASN's description in firewall
      events, and the panel merges the two on ClientASN, organizes the
      columns and sorts by query A's count, descending. */
  function AsnLookupTablePanel(mode: Mode, id: int, title: string, httpExpr: string, x: int, y: int,
                               w: int := 12, h: int := 8, desc: string := ""): (r: Panel)
    ensures r.Viz? && r.kind == Table && r.id == id && r.title == title && r.gridPos == GridPos(h, w, x, y)
    ensures r.fieldConfig.Some? && r.fieldConfig.value.overrides == TABLE_OVERRIDES + [Override(ByName("Value #B"), [Hidden])]
    ensures r.fieldConfig.value.unit.None? && r.fieldConfig.value.thresholds == BASELINE
    ensures r.fieldConfig.value.mappings == []
    ensures r.datasource == DS(mode) && r.options == TableOptions("Count")
    ensures |r.targets| == 2
    ensures r.targets[0].refId == REF_A && r.targets[0].expr == httpExpr
    ensures r.targets[1].refId == REF_B && r.targets[1].expr == AsnLookupExpr()
    ensures forall i :: 0 <= i < 2 ==>
      && r.targets[i].instant && r.targets[i].tableFormat && r.targets[i].datasource == DS(mode)
      && r.targets[i].legendFormat == "{{ClientASN}}" && r.targets[i].queryType.None?
    ensures r.transformations == [Merge, ASN_ORGANIZE, SortBy("Value #A", true)]
    ensures r.description == Describe(desc)
  {
    Viz(Table, id, title, GridPos(h, w, x, y), DS(mode),
        Some(TableDefaults(TABLE_OVERRIDES + [Override(ByName("Value #B"), [Hidden])])),
        TableOptions("Count"),
        [Target(DS(mode), httpExpr, "{{ClientASN}}", REF_A, None, true, true),
         Target(DS(mode), AsnLookupExpr(), "{{ClientASN}}", REF_B, None, true, true)],
        [Merge, ASN_ORGANIZE, SortBy("Value #A", true)],
        Describe(desc))
  }

  /** `fw_asn_table_panel(...)`: a single firewall query already carrying
      each ASN's description, so the columns are organized without a join. */
  function FwAsnTablePanel(mode: Mode, id: int, title: string, fwExpr: string, x: int, y: int,
                           w: int := 8, h: int := 8, desc: string := ""): (r: Panel)
    ensures r.Viz? && r.kind == Table && r.id == id && r.title == title && r.gridPos == GridPos(h, w, x, y)
    ensures r.targets == [Target(DS(mode), fwExpr, "{{ClientASN}}", REF_A, None, true, true)]
    ensures r.fieldConfig.Some? && r.fieldConfig.value.overrides == TABLE_OVERRIDES
    ensures r.fieldConfig.value.unit.None? && r.fieldConfig.value.thresholds == BASELINE
    ensures r.fieldConfig.value.mappings == []
    ensures r.datasource == DS(mode) && r.options == TableOptions("Count")
    ensures r.transformations == [ASN_ORGANIZE.(exclude := {"Time"}), SortBy("Value #A", true)]
    ensures r.description == Describe(desc)
  {
    Viz(Table, id, title, GridPos(h, w, x, y), DS(mode),
        Some(TableDefaults(TABLE_OVERRIDES)),
        TableOptions("Count"),
        [Target(DS(mode), fwExpr, "{{ClientASN}}", REF_A, None, true, true)],
        [ASN_ORGANIZE.(exclude := {"Time"}), SortBy("Value #A", true)],
        Describe(desc))
  }

  /** The lookup query's field list: the join key, the name it looks up
      and the two firewall filter fields, the key sorting before the name
      it prefixes. */
  lemma AsnLookupFields()
    ensures FwFields(["ClientASN", "ClientASNDescription"])
      == ["ClientASN", "ClientASNDescription", "ClientIP", "ClientRequestHost"]
  {
    var expected := ["ClientASN", "ClientASNDescription", "ClientIP", "ClientRequestHost"];
    forall k | 0 <= k < |expected| - 1 ensures Less(expected[k], expected[k + 1]) {
      if k == 0 { LessPrefix(expected[0], expected[1]); }
      else { LessAt(expected[k], expected[k + 1], 6); }
    }
    ChainSorted(expected);
    SortedUnique(FwFields(["ClientASN", "ClientASNDescription"]), expected);
  }

  /** The lookup query's whole text: the firewall selector, the four fields
      joined by a comma and a space, then the firewall filters. */
  lemma AsnLookupQueryText()
    ensures Fw(["ClientASN", "ClientASNDescription"]) ==
      FW_SELECTOR + " | json "
      + ("ClientASN" + ", " + "ClientASNDescription" + ", " + "ClientIP" + ", " + "ClientRequestHost")
      + (" " + FW_FILTERS)
  {
    AsnLookupFields();
    JoinFour("ClientASN", "ClientASNDescription", "ClientIP", "ClientRequestHost", ", ");
  }

  /** In export mode every factory builds the same panel, whatever its
      arguments, only addressed to the exported datasource; the targets a
      caller builds with `t` are re-addressed the same way. */
  lemma FactoriesIgnoreModeButDatasource(id: int, title: string, expr: string, legend: string, x: int, y: int,
                                         w: int, h: int, unit: string, stack: bool, fill: int,
                                         thresholds: Option<seq<Step>>, overrides: seq<Override>,
                                         legendCalcs: Option<seq<string>>, targets: seq<Target>, desc: string,
                                         ref: RefId)
    ensures StatPanel(Export, id, title, expr, legend, x, y, w, unit, thresholds, desc)
      == Retarget(StatPanel(Local, id, title, expr, legend, x, y, w, unit, thresholds, desc), DS(Export))
    ensures TsPanel(Export, id, title, RetargetTargets(targets, DS(Export)), x, y, w, h, unit, stack, overrides, fill, legendCalcs, desc)
      == Retarget(TsPanel(Local, id, title, targets, x, y, w, h, unit, stack, overrides, fill, legendCalcs, desc), DS(Export))
    ensures BarPanel(Export, id, title, RetargetTargets(targets, DS(Export)), x, y, w, h, unit, stack, overrides, desc)
      == Retarget(BarPanel(Local, id, title, targets, x, y, w, h, unit, stack, overrides, desc), DS(Export))
    ensures TablePanel(Export, id, title, expr, legend, x, y, w, h, overrides, desc)
      == Retarget(TablePanel(Local, id, title, expr, legend, x, y, w, h, overrides, desc), DS(Export))
    ensures AsnLookupTablePanel(Export, id, title, expr, x, y, w, h, desc)
      == Retarget(AsnLookupTablePanel(Local, id, title, expr, x, y, w, h, desc), DS(Export))
    ensures FwAsnTablePanel(Export, id, title, expr, x, y, w, h, desc)
      == Retarget(FwAsnTablePanel(Local, id, title, expr, x, y, w, h, desc), DS(Export))
    ensures T(Export, expr, legend, ref) == T(Local, expr, legend, ref).(datasource := DS(Export))
  {
  }

  /** `_perf_targets` in export mode gives the local targets re-addressed,
      and fails for the same starting letters. */
  lemma PerfTargetsIgnoreModeButDatasource(field: string, refStart: RefId, preFilter: string)
    ensures PerfTargets(Export, field, refStart, preFilter).Success? == PerfTargets(Local, field, refStart, preFilter).Success?
    ensures PerfTargets(Local, field, refStart, preFilter).Success? ==>
      PerfTargets(Export, field, refStart, preFilter).value
        == RetargetTargets(PerfTargets(Local, field, refStart, preFilter).value, DS(Export))
  {
  }

  // ---------------------------------------------------------------------
  // Layout and document.

  /** `collapse_rows` with this dashboard's open rows. */
  method CollapseRows(panels: seq<Panel>) returns (result: seq<Panel>)
    ensures result == RowLayout.Layout(panels, OPEN_ROWS)
  {
    result := RowLayout.CollapseRows(panels, OPEN_ROWS);
  }

  /** The "Overview" row stays open and is followed by its panels; the next
      row collapses and takes the panels after it. */
  lemma OverviewOpenOthersCollapse(overview: Panel, a: Panel, b: Panel, other: Panel, c: Panel)
    requires overview.Row? && overview.title == "Overview"
    requires other.Row? && other.title == "Other"
    requires !a.Row? && !b.Row? && !c.Row?
    ensures RowLayout.Layout([overview, a, b, other, c], OPEN_ROWS)
      == [overview, a, b, other.(collapsed := true, panels := [c])]
  {
    RowLayout.LeadingPanelsStayTopLevel([], overview, [a, b, other, c], OPEN_ROWS);
    RowLayout.RowGroupFlush(overview, [a, b], other, [c], OPEN_ROWS);
    RowLayout.LastRowFlush(other, [c], OPEN_ROWS);
    assert [a, b, other, c] == [a, b] + [other] + [c];
  }

  const ALL_OPTION := VarOption(true, "All", "$__all")

  /** The zones offered when the dashboard is deployed locally. */
  const KNOWN_ZONES: seq<VarOption> := [
    VarOption(false, "erfianugrah.com", "erfianugrah.com"),
    VarOption(false, "erfi.dev", "erfi.dev"),
    VarOption(false, "erfi.io", "erfi.io")]

  /** The zone and host variables: multi-select with "All"; the hard-coded
      zone list is only offered locally. */
  function ZoneListVar(mode: Mode, name: string, labelText: string): (r: TemplateVar)
    ensures r.name == name && r.kind == Custom
    ensures r.options == [ALL_OPTION] + (if mode == Export then [] else KNOWN_ZONES)
    ensures r.query == (if mode == Export then "" else "erfianugrah.com,erfi.dev,erfi.io")
  {
    TemplateVar(name, labelText, Custom, [ALL_OPTION] + (if mode == Export then [] else KNOWN_ZONES),
                if mode == Export then "" else "erfianugrah.com,erfi.dev,erfi.io", None)
  }

  /** A zone-list variable's query lists exactly the zones it offers
      besides "All": the three known zones locally, none on export. */
  lemma ZoneQueryListsOfferedZones(mode: Mode, name: string, labelText: string)
    ensures ZoneListVar(mode, name, labelText).query
      == Join(OptionValues(ZoneListVar(mode, name, labelText).options[1..]), ",")
  {
    var v := ZoneListVar(mode, name, labelText);
    if mode == Local {
      assert v.options[1..] == KNOWN_ZONES;
      assert OptionValues(KNOWN_ZONES) == ["erfianugrah.com", "erfi.dev", "erfi.io"];
      JoinThree("erfianugrah.com", "erfi.dev", "erfi.io", ",");
      assert "erfianugrah.com" + "," + "erfi.dev" + "," + "erfi.io" == "erfianugrah.com,erfi.dev,erfi.io";
    }
  }

  /** The names of the template variables, in dashboard order. */
  const FILTER_VARIABLES: seq<string> := ["zone", "host", "path", "ip", "country", "ja4", "asn", "colo"]

  /** A free-text regex filter defaulting to match-all. */
  function RegexVar(name: string, labelText: string): TemplateVar
  {
    TemplateVar(name, labelText, Textbox, [], ".*", None)
  }

  /** `templating.list`. The country options come from a lookup table
      outside this model and are passed in. */
  function Templating(mode: Mode, countryOptions: seq<VarOption>, countryQuery: string): (r: seq<TemplateVar>)
    ensures |r| == |FILTER_VARIABLES|
    ensures forall i :: 0 <= i < |r| ==> r[i].name == FILTER_VARIABLES[i] && r[i].datasource.None?
    ensures r[0] == ZoneListVar(mode, "zone", "Zone") && r[1] == ZoneListVar(mode, "host", "Host")
    ensures r[4].kind == Custom && r[4].options == [ALL_OPTION] + countryOptions && r[4].query == countryQuery
    ensures forall i :: 0 <= i < |r| && i !in {0, 1, 4} ==>
      r[i].kind == Textbox && r[i].options == [] && r[i].query == ".*"
  {
    [ZoneListVar(mode, "zone", "Zone"), ZoneListVar(mode, "host", "Host"),
     RegexVar("path", "Path"), RegexVar("ip", "IP"),
     TemplateVar("country", "Country", Custom, [ALL_OPTION] + countryOptions, countryQuery, None),
     RegexVar("ja4", "JA4"), RegexVar("asn", "ASN"), RegexVar("colo", "Colo")]
  }

  const MANIFEST := Manifest(
    [Input("DS_LOKI", "Loki", "loki")],
    [Requirement("grafana", "grafana", "Grafana", "11.0.0"),
     Requirement("datasource", "loki", "Loki", "1.0.0"),
     Requirement("panel", "barchart", "Bar chart", ""),
     Requirement("panel", "geomap", "Geomap", ""),
     Requirement("panel", "piechart", "Pie chart", ""),
     Requirement("panel", "stat", "Stat", ""),
     Requirement("panel", "table", "Table", ""),
     Requirement("panel", "timeseries", "Time series", "")])

  /** The dashboard document built from the emitted panels. */
  function BuildDashboard(mode: Mode, panels: seq<Panel>, countryOptions: seq<VarOption>, countryQuery: string): (r: Dashboard)
    ensures r.manifest.Some? <==> mode == Export
    ensures r.editable <==> mode == Export
    ensures r.panels == RowLayout.Layout(panels, OPEN_ROWS)
    ensures r.templating == Templating(mode, countryOptions, countryQuery)
    ensures r.title == "Cloudflare Logpush" && r.uid == "cloudflare-logpush"
  {
    Dashboard(if mode == Export then Some(MANIFEST) else None,
              mode == Export,
              RowLayout.Layout(panels, OPEN_ROWS),
              Templating(mode, countryOptions, countryQuery),
              "Cloudflare Logpush", "cloudflare-logpush", ["cloudflare", "logpush", "loki", "security"], 39)
  }

  /** Switching to export mode, with panels built for the exported
      datasource, changes datasource addressing, drops the hard-coded zone
      and host options, makes the dashboard editable and adds the manifest;
      the panel tree, its ids and its rectangles, and the rest of the
      document are the same. */
  lemma ExportOnlyReaddresses(panels: seq<Panel>, countryOptions: seq<VarOption>, countryQuery: string)
    ensures var localDoc := BuildDashboard(Local, panels, countryOptions, countryQuery);
      var exportDoc := BuildDashboard(Export, RetargetAll(panels, DS(Export)), countryOptions, countryQuery);
      && exportDoc.panels == RetargetAll(localDoc.panels, DS(Export))
      && Ids(exportDoc.panels) == Ids(localDoc.panels)
      && Grids(exportDoc.panels) == Grids(localDoc.panels)
      && |exportDoc.templating| == |localDoc.templating|
      && (forall i :: 0 <= i < |localDoc.templating| ==> exportDoc.templating[i].name == localDoc.templating[i].name)
      && (forall i :: 2 <= i < |localDoc.templating| ==> exportDoc.templating[i] == localDoc.templating[i])
      && localDoc.templating[0] == ZoneListVar(Local, "zone", "Zone") && exportDoc.templating[0] == ZoneListVar(Export, "zone", "Zone")
      && localDoc.templating[1] == ZoneListVar(Local, "host", "Host") && exportDoc.templating[1] == ZoneListVar(Export, "host", "Host")
      && localDoc.templating[0].options == localDoc.templating[1].options == [ALL_OPTION] + KNOWN_ZONES
      && exportDoc.templating[0].options == exportDoc.templating[1].options == [ALL_OPTION]
      && localDoc.manifest.None? && exportDoc.manifest == Some(MANIFEST)
      && !localDoc.editable && exportDoc.editable
      && exportDoc.(manifest := None, editable := false, panels := localDoc.panels, templating := localDoc.templating) == localDoc
  {
    RowLayout.LayoutCommutesWithRetarget(panels, OPEN_ROWS, DS(Export));
  }
}
