# Cloudflare Grafana dashboard generators, modelled in Dafny

Two Python scripts build Grafana dashboard documents.

- `gen-cloudflare-logpush.py` builds the dashboard over Cloudflare Logpush data in Loki.
- `gen-cloudflared.py` builds the Cloudflare Tunnel dashboard over Prometheus metrics.

Each script emits a flat list of rows and panels. A panel id comes from a running `pid` counter, and a row's position comes from a vertical cursor `y`. `collapse_rows` then folds that list into the document's top-level list:
- A row whose title is in `OPEN_ROWS` stays expanded, with its panels as siblings.
- Every other row collapses and owns its panels.

`--export` swaps the hard-coded datasource uid for an input variable. It also adds the portability manifest (`__inputs`, `__elements`, `__requires`) and makes the dashboard editable. In the Logpush dashboard it also drops the hard-coded zone and host choices.

The model has one module per concern:

- `Grafana`: the document as values: panels, rows, targets, field config, template variables, manifest. Also `row(...)` and the re-addressing of datasources that export mode performs.
- `Strings`: Python's `str` ordering, `sorted(set(xs))` and `", ".join(xs)`.
- `RowLayout`: `collapse_rows`.
  - The loop is a method proved against a recursive specification, `Layout`.
  - Lemmas about `Layout` prove the round trip, the conservation of panels, the flush rule segment by segment, and that layout commutes with export re-addressing.
- `Grid`: the script-level `panels`, `pid` and `y`, as a class whose methods are the append-and-bump idioms.
- `Logpush`: the LogQL fragment builders `http`, `fw` and `wk`, `_perf_targets`, the panel factories, the template variables and the document.
- `Cloudflared`: the panel factories, the two post-construction patches, the template variables and the document.

Behaviour worth knowing that the code fixes:
- Panels before the first row are buffered in `children` and flushed at the first row, or at the end when there is no row. The output equals emitting them at once, and `RowLayout.LeadingPanelsStayTopLevel` proves it.
- There is no "unknown dataset" error. The code has three fixed builders (`http`, `fw`, `wk`) rather than one builder keyed by dataset name.
- Threshold steps are not validated. They are passed through as given.
- Export mode also flips `editable` and adds the manifest, not only the datasource uid.
- In the Tunnel dashboard the uid is `cloudflared-tunnel` in both modes.

## Model

| member | source | states |
|---|---|---|
| RowLayout.CollapseRows | generators/gen-cloudflare-logpush.py:27-64 | The loop, with the same `current_row`/`children` state and flushes, returns exactly the recursive layout of the input |
| RowLayout.LayoutRoundTrip | generators/gen-cloudflare-logpush.py:27-64 | For rows as `row()` builds them, putting every row back in front of the panels it owns gives back the input: nothing is lost, duplicated or reordered |
| RowLayout.PanelsConserved | generators/gen-cloudflare-logpush.py:27-64 | The panels the output shows (top-level, or owned by a collapsed row) are exactly the input's non-row panels, in order |
| RowLayout.NoRowsUnchanged | generators/gen-cloudflare-logpush.py:47-48 | An input with no rows comes back unchanged |
| RowLayout.LeadingPanelsStayTopLevel | generators/gen-cloudflare-logpush.py:47-50 | Panels before the first row stay top-level, in order, ahead of the first row's flush |
| RowLayout.RowGroupFlush | generators/gen-cloudflare-logpush.py:38-46 | When the next row arrives, an open row is emitted followed by its panels as siblings; any other row is emitted alone, collapsed, owning its panels |
| RowLayout.LastRowFlush | generators/gen-cloudflare-logpush.py:53-62 | At the end of the input the last row is flushed by the same rule with every panel after it |
| RowLayout.LayoutCommutesWithRetarget | generators/gen-cloudflare-logpush.py:15-18 | Laying out panels built for the exported datasource gives the local layout re-addressed: the same tree, ids and grid rectangles |
| Grafana.NewRow | generators/gen-cloudflare-logpush.py:22-25 | `row()`: a full-width row one unit high at `y`, not collapsed, owning no panels, with `desc` as its description exactly when it is non-empty |
| Grafana.RetargetOverrides | generators/gen-cloudflare-logpush.py:15-18 | Re-addressing twice is re-addressing once with the last datasource, so a document carries no trace of the other mode |
| Grid.Generation.constructor | generators/gen-cloudflare-logpush.py:348-350 | Generation starts with no panels, `pid` 1 and `y` 0 |
| Grid.Generation.AddRow | generators/gen-cloudflare-logpush.py:355 | Appending a row gives it the current `pid` and `y`, then bumps both; ids stay 1, 2, 3, ... |
| Grid.Generation.AddPanel | generators/gen-cloudflared.py:188-191 | Appending a panel built with the current `pid` bumps `pid` and leaves `y`; its id is above every earlier id |
| Grid.Generation.Advance | generators/gen-cloudflared.py:221 | `y += dy` moves only the cursor |
| Grid.DocumentIdsIncrease | generators/gen-cloudflare-logpush.py:1151 | The laid-out document, expanded in order, shows ids 1, 2, 3, ..., strictly increasing, so none repeats |
| Strings.SortedSet | generators/gen-cloudflare-logpush.py:333 | `sorted(set(xs))`: strictly sorted in Python's string order, with exactly the elements of `xs` |
| Strings.SortedSetCanonical | generators/gen-cloudflare-logpush.py:333 | `sorted(set(xs))` depends only on which elements `xs` holds |
| Strings.SortedUnique | generators/gen-cloudflare-logpush.py:333 | Two strictly sorted lists with the same elements are equal, so the sorted set is unique |
| Strings.JoinSnoc | generators/gen-cloudflare-logpush.py:335 | `sep.join` read from the right: joining one more element appends the separator and that element to the joined text |
| Strings.JoinThree | generators/gen-cloudflared.py:701 | `sep.join` of three elements puts the separator between each pair and nowhere else |
| Strings.JoinFour | generators/gen-cloudflare-logpush.py:335 | `sep.join` of four elements puts the separator between each pair and nowhere else |
| Logpush.DS | generators/gen-cloudflare-logpush.py:15-18 | The Loki datasource, uid `${DS_LOKI}` on export and `loki` otherwise |
| Logpush.HttpFields | generators/gen-cloudflare-logpush.py:327-334 | The `http` field list is strictly sorted and holds exactly the HTTP filter fields and the requested fields |
| Logpush.Http | generators/gen-cloudflare-logpush.py:332-335 | `http(...)` is the HTTP stream selector and `| json `, then the `HttpFields` list joined with `, `, then every HTTP filter |
| Logpush.FwFields | generators/gen-cloudflare-logpush.py:329-339 | The `fw` field list is strictly sorted and holds exactly the firewall filter fields and the requested fields |
| Logpush.Fw | generators/gen-cloudflare-logpush.py:337-340 | `fw(...)` is the firewall stream selector and `| json `, then the `FwFields` list joined with `, `, then every firewall filter |
| Logpush.Wk | generators/gen-cloudflare-logpush.py:342-346 | `wk()` with no fields is the bare selector with `| json`; otherwise it lists the sorted distinct fields and adds no filters |
| Logpush.HttpCanonical | generators/gen-cloudflare-logpush.py:332-335 | Requests naming the same fields in any order or repetition give the same `http` query |
| Logpush.FwCanonical | generators/gen-cloudflare-logpush.py:337-340 | The same for `fw` |
| Logpush.WkCanonical | generators/gen-cloudflare-logpush.py:342-346 | The same for `wk`, including the empty request |
| Logpush.HttpFilterFieldsAbsorbed | generators/gen-cloudflare-logpush.py:327 | Requesting a field the filters already extract leaves the `http` query unchanged |
| Logpush.HttpFieldsExample | generators/gen-cloudflare-logpush.py:332-334 | `http("ClientRequestMethod")` extracts the nine fields in the order ClientASN, ClientCountry, ClientIP, ClientRequestHost, ClientRequestMethod, ClientRequestPath, EdgeColoCode, JA4, ZoneName |
| Logpush.T | generators/gen-cloudflare-logpush.py:171-172 | `t()`: a range query on the dashboard datasource with the given expression, legend and refId |
| Logpush.PerfTargets | generators/gen-cloudflare-logpush.py:525-538 | Six targets (average, p50, p75, p90, p95, p99) with consecutive refIds from the start letter; each one is the `t()` target (a range query on the dashboard datasource, neither instant nor table) aggregating `http(field)`, the optional pre-filter and `unwrap field`; fails exactly when one of the seven computed refIds would be past the last code point |
| Logpush.PerfTargetsRefIds | generators/gen-cloudflare-logpush.py:527 | From the default start the refIds are distinct and run A to F |
| Logpush.StatPanel | generators/gen-cloudflare-logpush.py:66-82 | A 4-high stat on the dashboard datasource with one instant query, auto text mode, no mappings, no overrides and no transformations; the unit gives bounds 0 to 100 exactly when it is `percent`; thresholds default to a green baseline when missing or empty; its description is `desc` exactly when `desc` is non-empty |
| Logpush.TsPanel | generators/gen-cloudflare-logpush.py:84-111 | A time series on the dashboard datasource over the given targets, with no bounds, decimals or mappings, the green threshold baseline and no transformations; stacking is `normal` exactly when `stack`; unit and overrides as given; legend calcs are the given non-empty list, otherwise sum and mean; its description is `desc` exactly when `desc` is non-empty |
| Logpush.BarPanel | generators/gen-cloudflare-logpush.py:114-120 | Equal to the time-series panel of the same arguments except draw style `bars`, fill 80 and points `never` |
| Logpush.TablePanel | generators/gen-cloudflare-logpush.py:122-155 | One instant table query on the dashboard datasource, titled `title`, with no unit, no mappings and the green threshold baseline; the count and hidden-time overrides followed by the extra ones; the header sort on Count and a `Value #A` descending sort; its description is `desc` exactly when `desc` is non-empty |
| Logpush.AsnLookupTablePanel | generators/gen-cloudflare-logpush.py:192-240 | Titled `title` on the dashboard datasource, with no unit, no mappings and the green threshold baseline; the count, hidden-time and hidden-`Value #B` overrides; query A is the given HTTP expression and query B the firewall ASN-name lookup, both instant tables with legend `{{ClientASN}}`; they are merged, organized and sorted by A's count; its description is `desc` exactly when `desc` is non-empty |
| Logpush.FwAsnTablePanel | generators/gen-cloudflare-logpush.py:242-279 | Titled `title` on the dashboard datasource, with no unit, no mappings, the green threshold baseline and the count and hidden-time overrides; one firewall table query, organized without a join (only Time hidden) and sorted by its count; its description is `desc` exactly when `desc` is non-empty |
| Logpush.AsnLookupFields | generators/gen-cloudflare-logpush.py:198 | The lookup query extracts ClientASN, ClientASNDescription, ClientIP and ClientRequestHost, in that order |
| Logpush.AsnLookupQueryText | generators/gen-cloudflare-logpush.py:198 | The lookup's whole `fw` fragment: the firewall selector, `| json `, the four fields separated by `, `, a space and the firewall filters |
| Logpush.FactoriesIgnoreModeButDatasource | generators/gen-cloudflare-logpush.py:15-18 | For all arguments, every panel factory and `t()` in export mode builds the local result re-addressed to the exported datasource |
| Logpush.PerfTargetsIgnoreModeButDatasource | generators/gen-cloudflare-logpush.py:525-538 | `_perf_targets` fails in export mode exactly when it fails locally, and otherwise gives the local targets re-addressed |
| Logpush.CollapseRows | generators/gen-cloudflare-logpush.py:20 | `collapse_rows` with `Overview` as the only open row |
| Logpush.OverviewOpenOthersCollapse | generators/gen-cloudflare-logpush.py:20-64 | `Overview` stays expanded with its panels beside it; the next row collapses and owns the panels after it |
| Logpush.Templating | generators/gen-cloudflare-logpush.py:1154-1265 | Eight variables named zone, host, path, ip, country, ja4, asn and colo, none bound to a datasource; zone and host are the zone-list variables; country offers "All" then the given options with the given query; the other five are free-text boxes defaulting to `.*` |
| Logpush.ZoneListVar | generators/gen-cloudflare-logpush.py:1155-1196 | The zone and host variables offer "All" and, only locally, the three hard-coded zones; their query is empty on export |
| Logpush.ZoneQueryListsOfferedZones | generators/gen-cloudflare-logpush.py:1166-1172 | A zone-list variable's query is its offered zones (every option after "All") joined by commas: the three known zones locally, nothing on export |
| Logpush.BuildDashboard | generators/gen-cloudflare-logpush.py:1124-1273 | The manifest is present and the dashboard editable exactly in export mode; the panels are the laid-out emission list; the template variables are `Templating` of the same mode and country choices; title `Cloudflare Logpush` and uid `cloudflare-logpush` |
| Logpush.ExportOnlyReaddresses | generators/gen-cloudflare-logpush.py:1124-1273 | Export changes only the datasource addressing, the zone and host choices (all three known zones offered locally, only "All" on export), the `editable` flag (set on export) and the manifest; panel tree, ids and rectangles, title, uid, tags and schema version are the same |
| Cloudflared.DS | generators/gen-cloudflared.py:12-15 | The Prometheus datasource, uid `${DS_PROMETHEUS}` on export and `prometheus` otherwise |
| Cloudflared.T | generators/gen-cloudflared.py:167-168 | `t()`: a target with no query type on the dashboard datasource |
| Cloudflared.StatPanel | generators/gen-cloudflared.py:63-82 | Like the Logpush stat (datasource, text mode, no overrides, no transformations), but decimals are set whenever given (zero included), value mappings are passed through, and the query has no query type; its description is `desc` exactly when `desc` is non-empty |
| Cloudflared.TsPanel | generators/gen-cloudflared.py:84-112 | On the dashboard datasource, with no bounds, decimals or mappings, the green threshold baseline and no transformations; unstacked unless `stack`; legend calcs default to mean and max only when missing, and an explicit empty list is kept; unit and overrides as given; its description is `desc` exactly when `desc` is non-empty |
| Cloudflared.BarPanel | generators/gen-cloudflared.py:114-119 | Equal to the time-series panel of the same arguments, description included, except draw style `bars`, fill 80 and points `never` |
| Cloudflared.GaugePanel | generators/gen-cloudflared.py:121-137 | Titled `title` on the dashboard datasource, with gauge options, no mappings, overrides or transformations; bounds always set (0 and 100 unless given); thresholds default to green, yellow from 60 and red from 85; decimals whenever given; its description is `desc` exactly when `desc` is non-empty |
| Cloudflared.TablePanel | generators/gen-cloudflared.py:139-152 | Titled `title` on the dashboard datasource, with no unit, no mappings and the green threshold baseline; one instant table query sorted by `Value`, with no overrides and no transformations; its description is `desc` exactly when `desc` is non-empty |
| Cloudflared.TextPanel | generators/gen-cloudflared.py:154-165 | Markdown content on the dashboard datasource with no field config, no queries and no transformations; its description is `desc` exactly when `desc` is non-empty |
| Cloudflared.WithTextMode | generators/gen-cloudflared.py:215-220 | The version stat's patch sets the text mode and changes nothing else |
| Cloudflared.WithMappings | generators/gen-cloudflared.py:491-496 | The congestion-state patch replaces the value mappings and changes nothing else |
| Cloudflared.TextModeCommutesWithRetarget | generators/gen-cloudflared.py:215-220 | The version stat's text-mode patch commutes with export re-addressing on any stat panel |
| Cloudflared.MappingsCommuteWithRetarget | generators/gen-cloudflared.py:491-496 | The mappings patch commutes with export re-addressing on any panel with a field config, time series included |
| Cloudflared.CongestionPanelExport | generators/gen-cloudflared.py:491-496 | The congestion-state panel is the `ts_panel` it is built from with only its mappings replaced, and built for export it is the local panel re-addressed |
| Cloudflared.FactoriesIgnoreModeButDatasource | generators/gen-cloudflared.py:12-15 | For all arguments, every panel factory and `t()` in export mode builds the local result re-addressed to the exported datasource |
| Cloudflared.CollapseRows | generators/gen-cloudflared.py:17 | `collapse_rows` with `Tunnel Overview` as the only open row |
| Cloudflared.TunnelOverviewOpenOthersCollapse | generators/gen-cloudflared.py:17-61 | `Tunnel Overview` stays expanded with its panels beside it; the next row collapses and owns the panels after it |
| Cloudflared.Templating | generators/gen-cloudflared.py:673-722 | Three variables: `job`, a query variable on the dashboard datasource with query `label_values(cloudflared_tunnel_ha_connections, job)` and no fixed options; `available_ports`, a custom variable offering 50000, 30000 and 16384 with that comma-joined query; `dns_timeout`, offering 5, 10 and 30 likewise; the last two reference no datasource |
| Cloudflared.FixedChoicesListOptions | generators/gen-cloudflared.py:689-718 | Each fixed-choice variable shows every option as its own value, selects only the first (the recommended default), and its query is the option values joined by commas |
| Cloudflared.BuildDashboard | generators/gen-cloudflared.py:644-728 | The manifest is present and the dashboard editable exactly in export mode; the title is `Cloudflare Tunnel` and the uid `cloudflared-tunnel` in both modes; the panels are the laid-out emission list; the template variables are `Templating` of the same mode |
| Cloudflared.ExportOnlyReaddresses | generators/gen-cloudflared.py:644-728 | Export re-addresses every datasource reference, including the job variable, which is the first of the three variables and queries `prometheus` locally and `${DS_PROMETHEUS}` on export; sets `editable` (false locally) and adds the manifest (absent locally); title, uid, tags and schema version are the same |

## Left out

- File output, the choice of output path and the `--export` argument parsing are not modelled. The mode is a parameter instead.
- Panels are modelled as values. `collapse_rows` mutates the caller's row dictionaries in place (`collapsed`, `panels`), and that aliasing is not captured; only the returned list is.
- The individual `panels.append(...)` calls that build each dashboard, their titles, queries and coordinates, are not modelled. Generation is modelled by `Grid.Generation` and the factories instead.
- Grid overlap is not checked. The scripts rely on the caller placing panels, and the model does the same.
- `pie_panel`, `geomap_panel`, `color_override` and `regex_color` are left out. They only assemble styling literals, with no branch or default worth proving.
- The country lookup table is not part of this model. So `country_name_overrides`, `country_value_mappings_override` and the country variable's options are left out; the options are passed in as a parameter.
- Colour modes, palettes, tooltip and legend display settings and other fixed styling literals are not represented in the panel values.
- Threshold values are reals and are only passed through; no floating-point arithmetic is modelled.
- The meaning of the generated LogQL and PromQL queries is not modelled, only their text.
- Logpush.StatPanel: the `instant` argument is not a parameter, because the source never reads it.
- Cloudflared.WithTextMode: requires a stat panel's options. The source applies the patch only to a stat panel, and other option shapes are not represented.
- Cloudflared.WithMappings: requires a panel with a field config. The source would raise `KeyError` on a text panel, and the patch is applied only to a time-series panel.
- Cloudflared.WithMappings: the congestion-state names the patch installs (0 SlowStart, 1 CongAvoid, 2 Recovery, 3 AppLimited) are not spelled out. The patch is modelled for any list of value mappings, and Grafana's single "value" mapping holding an options dictionary is represented as one value-to-text entry per option.
- Cloudflared.Templating: the job variable's query is kept as its expression text; the `refId` it is wrapped with is not represented.
