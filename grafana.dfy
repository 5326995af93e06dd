/** grafana.go: the aggregation of a dashboard's panels with their alert
    states, current values and image references, and the single-panel
    lookup built on it. Every HTTP call is replaced by its outcome. */
module Grafana {
  import opened Model
  import opened Dto
  import opened Client
  import opened Results

  /** The `grafana` struct of grafana.go: its client and image attributes. */
  datatype Service = Service(client: Connection, attrs: ImageAttributes)

  /** `NewGrafana`: the client is built by `newClient`, so its URL is
      normalised, and the attributes are kept. */
  function NewGrafana(url: string, token: string, attrs: ImageAttributes): (g: Service)
    ensures g.client == NewClient(url, token)
    ensures g.client.url == NormalizeURL(url) && g.client.token == token
    ensures g.attrs == attrs
  {
    Service(NewClient(url, token), attrs)
  }

  /** The outcomes of the three kinds of HTTP call `Panels` makes: the
      dashboard by UID, the alert states by dashboard id, and the datasource
      query by query string. */
  datatype Fetches = Fetches(
    dashboard: string -> Response<DashboardDTO>,
    alertStates: int -> Response<seq<AlertStateDTO>>,
    datasource: string -> Response<DatasourceDTO>)

  // ---------------------------------------------------------------------
  // Image reference
  // ---------------------------------------------------------------------

  const NanosPerMilli := 1_000_000

  /** The image window: twelve hours, in nanoseconds. */
  const LookbackNanos := 12 * 60 * 60 * 1_000_000_000

  /** `time.Time.UnixMilli` of an instant given in nanoseconds since the
      epoch: milliseconds rounded down. */
  function UnixMilli(t: int): int
  {
    t / NanosPerMilli
  }

  /** Shifting an instant by whole milliseconds shifts its millisecond count by as many. */
  lemma UnixMilliShift(t: int, k: int)
    ensures UnixMilli(t - k * NanosPerMilli) == UnixMilli(t) - k
  {
    var q, r := t / NanosPerMilli, t % NanosPerMilli;
    assert t - k * NanosPerMilli == (q - k) * NanosPerMilli + r;
  }

  /** `getImageURL` with the current instant `now` (nanoseconds) as input:
      the window ends at `now` and starts twelve hours earlier. */
  function ImageURL(g: Service, dashboardUID: string, panelID: int, now: int): (r: ImageRef)
    ensures r.toMs == UnixMilli(now)
    ensures r.toMs - r.fromMs == 43_200_000
    ensures r.baseURL == g.client.url && r.dashboardUID == dashboardUID && r.panelID == panelID
    ensures r.width == g.attrs.width && r.height == g.attrs.height && r.timezone == g.attrs.timezone
  {
    UnixMilliShift(now, 43_200_000);
    var to := now;
    var from := to - LookbackNanos;
    ImageRef(g.client.url, dashboardUID, UnixMilli(from), UnixMilli(to),
             panelID, g.attrs.width, g.attrs.height, g.attrs.timezone)
  }

  // ---------------------------------------------------------------------
  // Title filter
  // ---------------------------------------------------------------------

  /** The panels whose title is in `names`, in dashboard order. */
  function FilterByTitles(panels: seq<PanelData>, names: set<string>): seq<PanelData>
    decreases |panels|
  {
    if panels == [] then []
    else
      var p := panels[|panels| - 1];
      FilterByTitles(panels[..|panels| - 1], names) + (if p.title in names then [p] else [])
  }

  /** The panels `Panels` processes: all of them without filter names,
      otherwise those whose title is one of the names. */
  function Selected(panels: seq<PanelData>, filterPanelNames: seq<string>): seq<PanelData>
  {
    if |filterPanelNames| > 0 then FilterByTitles(panels, set i | 0 <= i < |filterPanelNames| :: filterPanelNames[i])
    else panels
  }

  /** The filter keeps exactly the panels whose title is a filter name. */
  lemma {:induction false} FilterByTitlesMembers(panels: seq<PanelData>, names: set<string>)
    ensures forall p :: p in FilterByTitles(panels, names) <==> p in panels && p.title in names
    decreases |panels|
  {
    if panels != [] {
      var init := panels[..|panels| - 1];
      FilterByTitlesMembers(init, names);
      assert panels == init + [panels[|panels| - 1]];
    }
  }

  /** The filter keeps dashboard order. */
  lemma {:induction false} FilterByTitlesAppend(a: seq<PanelData>, b: seq<PanelData>, names: set<string>)
    ensures FilterByTitles(a + b, names) == FilterByTitles(a, names) + FilterByTitles(b, names)
    decreases |b|
  {
    if b == [] {
      assert a + b == a;
    } else {
      var init := b[..|b| - 1];
      assert (a + b)[..|a + b| - 1] == a + init;
      assert (a + b)[|a + b| - 1] == b[|b| - 1];
      FilterByTitlesAppend(a, init, names);
    }
  }

  /** The selection step of `Panels`. */
  method SelectPanels(dashboardPanels: seq<PanelData>, filterPanelNames: seq<string>) returns (panels: seq<PanelData>)
    ensures panels == Selected(dashboardPanels, filterPanelNames)
  {
    if |filterPanelNames| > 0 {
      var panelNamesMap: map<string, bool> := map[];
      for i := 0 to |filterPanelNames|
        invariant panelNamesMap.Keys == set k | 0 <= k < i :: filterPanelNames[k]
      {
        panelNamesMap := panelNamesMap[filterPanelNames[i] := true];
      }
      panels := [];
      for i := 0 to |dashboardPanels|
        invariant panels == FilterByTitles(dashboardPanels[..i], panelNamesMap.Keys)
      {
        var panel := dashboardPanels[i];
        assert dashboardPanels[..i + 1][..i] == dashboardPanels[..i];
        if panel.title in panelNamesMap {
          panels := panels + [panel];
        }
      }
      assert dashboardPanels[..|dashboardPanels|] == dashboardPanels;
    } else {
      panels := dashboardPanels;
    }
  }

  // ---------------------------------------------------------------------
  // Join
  // ---------------------------------------------------------------------

  /** The entry `Panels` stores for panel `p`: its title, image and values,
      and its dashboard alert with name and state taken from the alert map
      when the map has the panel. */
  function JoinedPanel(g: Service, dashboardUID: string, now: int, alerts: map<int, Alert>,
                       p: PanelData, currentValues: seq<CurrentValue>): (r: Panel)
    ensures r.title == p.title && r.currentValues == currentValues
    ensures r.image == ImageURL(g, dashboardUID, p.id, now)
    ensures p.id in alerts ==> r.alert == Alert(alerts[p.id].name, alerts[p.id].state, p.alert.conditions)
    ensures p.id !in alerts ==> r.alert == p.alert
  {
    var panel := Panel(p.title, ImageURL(g, dashboardUID, p.id, now), p.alert, currentValues);
    if p.id in alerts then
      panel.(alert := panel.alert.(state := alerts[p.id].state, name := alerts[p.id].name))
    else panel
  }

  /** The panel map after processing `panels` in order: the first value-fetch
      failure, or each panel stored under its id, a later one replacing an
      earlier one with the same id. */
  function Accumulate(g: Service, dashboardUID: string, now: int, alerts: map<int, Alert>,
                      datasource: string -> Response<DatasourceDTO>, panels: seq<PanelData>): Result<map<int, Panel>>
    decreases |panels|
  {
    if panels == [] then Success(map[])
    else
      var p := panels[|panels| - 1];
      match Accumulate(g, dashboardUID, now, alerts, datasource, panels[..|panels| - 1])
      case Failure(e) => Failure(e)
      case Success(result) =>
        match CurrentValuesOf(p.exprs, datasource)
        case Failure(e) => Failure(ValuesFailed(e))
        case Success(currentValues) =>
          Success(result[p.id := JoinedPanel(g, dashboardUID, now, alerts, p, currentValues)])
  }

  /** Once a prefix of the panels has failed, the later panels do not matter. */
  lemma {:induction false} AccumulateFailureFinal(g: Service, dashboardUID: string, now: int, alerts: map<int, Alert>,
                                                  datasource: string -> Response<DatasourceDTO>, panels: seq<PanelData>, i: nat)
    requires i <= |panels|
    requires Accumulate(g, dashboardUID, now, alerts, datasource, panels[..i]).Failure?
    ensures Accumulate(g, dashboardUID, now, alerts, datasource, panels) ==
            Accumulate(g, dashboardUID, now, alerts, datasource, panels[..i])
    decreases |panels|
  {
    if i < |panels| {
      var init := panels[..|panels| - 1];
      assert init[..i] == panels[..i];
      AccumulateFailureFinal(g, dashboardUID, now, alerts, datasource, init, i);
    } else {
      assert panels[..i] == panels;
    }
  }

  /** Aggregation succeeds exactly when every processed panel's value fetch does. */
  lemma {:induction false} AccumulateSuccess(g: Service, dashboardUID: string, now: int, alerts: map<int, Alert>,
                                             datasource: string -> Response<DatasourceDTO>, panels: seq<PanelData>)
    ensures Accumulate(g, dashboardUID, now, alerts, datasource, panels).Success? <==>
      forall j :: 0 <= j < |panels| ==> CurrentValuesOf(panels[j].exprs, datasource).Success?
    decreases |panels|
  {
    if panels != [] {
      var n := |panels|;
      var init := panels[..n - 1];
      AccumulateSuccess(g, dashboardUID, now, alerts, datasource, init);
      assert forall j :: 0 <= j < n - 1 ==> init[j] == panels[j];
    }
  }

  /** A failing aggregation reports the first panel whose value fetch failed. */
  lemma {:induction false} AccumulateFirstFailure(g: Service, dashboardUID: string, now: int, alerts: map<int, Alert>,
                                                  datasource: string -> Response<DatasourceDTO>, panels: seq<PanelData>)
    requires Accumulate(g, dashboardUID, now, alerts, datasource, panels).Failure?
    ensures exists j ::
              && 0 <= j < |panels|
              && CurrentValuesOf(panels[j].exprs, datasource).Failure?
              && (forall k :: 0 <= k < j ==> CurrentValuesOf(panels[k].exprs, datasource).Success?)
              && Accumulate(g, dashboardUID, now, alerts, datasource, panels).error ==
                   ValuesFailed(CurrentValuesOf(panels[j].exprs, datasource).error)
    decreases |panels|
  {
    var n := |panels|;
    var init := panels[..n - 1];
    assert forall k :: 0 <= k < n - 1 ==> init[k] == panels[k];
    if Accumulate(g, dashboardUID, now, alerts, datasource, init).Failure? {
      AccumulateFirstFailure(g, dashboardUID, now, alerts, datasource, init);
      var j :| && 0 <= j < |init|
               && CurrentValuesOf(init[j].exprs, datasource).Failure?
               && (forall k :: 0 <= k < j ==> CurrentValuesOf(init[k].exprs, datasource).Success?)
               && Accumulate(g, dashboardUID, now, alerts, datasource, init).error ==
                    ValuesFailed(CurrentValuesOf(init[j].exprs, datasource).error);
      assert init[j] == panels[j];
    } else {
      AccumulateSuccess(g, dashboardUID, now, alerts, datasource, init);
      assert CurrentValuesOf(panels[n - 1].exprs, datasource).Failure?;
    }
  }

  /** The panel map has an entry for exactly the ids of the processed panels. */
  lemma {:induction false} AccumulateKeys(g: Service, dashboardUID: string, now: int, alerts: map<int, Alert>,
                                          datasource: string -> Response<DatasourceDTO>, panels: seq<PanelData>)
    requires Accumulate(g, dashboardUID, now, alerts, datasource, panels).Success?
    ensures Accumulate(g, dashboardUID, now, alerts, datasource, panels).value.Keys == set p | p in panels :: p.id
    decreases |panels|
  {
    if panels != [] {
      var init := panels[..|panels| - 1];
      AccumulateKeys(g, dashboardUID, now, alerts, datasource, init);
      assert panels == init + [panels[|panels| - 1]];
    }
  }

  /** No later panel has the id of panel `j`. */
  predicate LastWithId(panels: seq<PanelData>, j: int)
    requires 0 <= j < |panels|
  {
    forall k :: j < k < |panels| ==> panels[k].id != panels[j].id
  }

  /** The entry of an id is the joined view of the last panel with that id. */
  lemma {:induction false} AccumulateLastWins(g: Service, dashboardUID: string, now: int, alerts: map<int, Alert>,
                                              datasource: string -> Response<DatasourceDTO>, panels: seq<PanelData>, j: int)
    requires Accumulate(g, dashboardUID, now, alerts, datasource, panels).Success?
    requires 0 <= j < |panels| && LastWithId(panels, j)
    ensures CurrentValuesOf(panels[j].exprs, datasource).Success?
    ensures panels[j].id in Accumulate(g, dashboardUID, now, alerts, datasource, panels).value
    ensures Accumulate(g, dashboardUID, now, alerts, datasource, panels).value[panels[j].id] ==
            JoinedPanel(g, dashboardUID, now, alerts, panels[j], CurrentValuesOf(panels[j].exprs, datasource).value)
    decreases |panels|
  {
    var n := |panels|;
    if j < n - 1 {
      var init := panels[..n - 1];
      assert LastWithId(init, j) by {
        forall k | j < k < |init| ensures init[k].id != init[j].id {
          assert init[k] == panels[k];
        }
      }
      AccumulateLastWins(g, dashboardUID, now, alerts, datasource, init, j);
    }
  }

  /** Every entry of the panel map is the joined view of a processed panel with that id. */
  lemma {:induction false} AccumulateValues(g: Service, dashboardUID: string, now: int, alerts: map<int, Alert>,
                                            datasource: string -> Response<DatasourceDTO>, panels: seq<PanelData>)
    requires Accumulate(g, dashboardUID, now, alerts, datasource, panels).Success?
    ensures forall id :: id in Accumulate(g, dashboardUID, now, alerts, datasource, panels).value ==>
      exists p ::
        && p in panels && p.id == id && CurrentValuesOf(p.exprs, datasource).Success?
        && Accumulate(g, dashboardUID, now, alerts, datasource, panels).value[id] ==
             JoinedPanel(g, dashboardUID, now, alerts, p, CurrentValuesOf(p.exprs, datasource).value)
    decreases |panels|
  {
    if panels != [] {
      var init := panels[..|panels| - 1];
      var last := panels[|panels| - 1];
      AccumulateValues(g, dashboardUID, now, alerts, datasource, init);
      var m := Accumulate(g, dashboardUID, now, alerts, datasource, panels).value;
      var prev := Accumulate(g, dashboardUID, now, alerts, datasource, init).value;
      forall id | id in m
        ensures exists p ::
                  && p in panels && p.id == id && CurrentValuesOf(p.exprs, datasource).Success?
                  && m[id] == JoinedPanel(g, dashboardUID, now, alerts, p, CurrentValuesOf(p.exprs, datasource).value)
      {
        if id == last.id {
          assert last in panels;
        } else {
          assert id in prev && m[id] == prev[id];
          var p :| p in init && p.id == id && CurrentValuesOf(p.exprs, datasource).Success? &&
            prev[id] == JoinedPanel(g, dashboardUID, now, alerts, p, CurrentValuesOf(p.exprs, datasource).value);
          assert p in panels;
        }
      }
    }
  }

  // ---------------------------------------------------------------------
  // Panels
  // ---------------------------------------------------------------------

  /** The outcome of `Panels`, as a panel map keyed by panel id. */
  function PanelsOf(g: Service, dashboardUID: string, filterPanelNames: seq<string>, up: Fetches, now: int)
    : Result<map<int, Panel>>
  {
    match up.dashboard(dashboardUID)
    case Failed(msg) => Failure(DashboardFailed(Transport(msg)))
    case Decoded(dto) =>
      var dashboard := DataOf(dto);
      match up.alertStates(dashboard.id)
      case Failed(msg) => Failure(AlertsFailed(Transport(msg)))
      case Decoded(states) =>
        Accumulate(g, dashboardUID, now, AlertMapOf(states), up.datasource, Selected(dashboard.panels, filterPanelNames))
  }

  /** A failed dashboard fetch or alert fetch ends `Panels` with that error,
      whatever the datasource would answer. */
  lemma PanelsFetchFailures(g: Service, dashboardUID: string, filterPanelNames: seq<string>, up: Fetches, now: int)
    ensures up.dashboard(dashboardUID).Failed? ==>
      PanelsOf(g, dashboardUID, filterPanelNames, up, now) == Failure(DashboardFailed(Transport(up.dashboard(dashboardUID).msg)))
    ensures up.dashboard(dashboardUID).Decoded? && up.alertStates(up.dashboard(dashboardUID).body.dashboard.id).Failed? ==>
      PanelsOf(g, dashboardUID, filterPanelNames, up, now) ==
        Failure(AlertsFailed(Transport(up.alertStates(up.dashboard(dashboardUID).body.dashboard.id).msg)))
  {
  }

  /** With no alert records, every returned panel keeps the empty alert state
      its dashboard declaration gets. */
  lemma NoAlertStatesLeaveStateEmpty(g: Service, dashboardUID: string, filterPanelNames: seq<string>, up: Fetches, now: int)
    requires up.dashboard(dashboardUID).Decoded?
    requires up.alertStates(up.dashboard(dashboardUID).body.dashboard.id) == Decoded([])
    requires PanelsOf(g, dashboardUID, filterPanelNames, up, now).Success?
    ensures forall id :: id in PanelsOf(g, dashboardUID, filterPanelNames, up, now).value ==>
      PanelsOf(g, dashboardUID, filterPanelNames, up, now).value[id].alert.state == ""
  {
    var dashboard := DataOf(up.dashboard(dashboardUID).body);
    var panels := Selected(dashboard.panels, filterPanelNames);
    var alerts := AlertMapOf([]);
    assert alerts == map[];
    AccumulateValues(g, dashboardUID, now, alerts, up.datasource, panels);
    ResolvePanelsMembers(up.dashboard(dashboardUID).body.dashboard.panels);
    if |filterPanelNames| > 0 {
      FilterByTitlesMembers(dashboard.panels, set i | 0 <= i < |filterPanelNames| :: filterPanelNames[i]);
    }
    assert forall p :: p in panels ==> p in dashboard.panels;
  }

  /** `Panels` returns one entry per distinct id among the selected panels. */
  lemma PanelsIds(g: Service, dashboardUID: string, filterPanelNames: seq<string>, up: Fetches, now: int)
    requires up.dashboard(dashboardUID).Decoded?
    requires PanelsOf(g, dashboardUID, filterPanelNames, up, now).Success?
    ensures PanelsOf(g, dashboardUID, filterPanelNames, up, now).value.Keys ==
      set p | p in Selected(DataOf(up.dashboard(dashboardUID).body).panels, filterPanelNames) :: p.id
  {
    var dashboard := DataOf(up.dashboard(dashboardUID).body);
    var states := up.alertStates(dashboard.id).body;
    AccumulateKeys(g, dashboardUID, now, AlertMapOf(states), up.datasource, Selected(dashboard.panels, filterPanelNames));
  }

  /** The lookup of `GetGrafanaPanel` finds one entry per distinct id among
      the resolved panels carrying the name, so it succeeds exactly when
      those panels share a single id. */
  lemma SinglePanelLookup(g: Service, dashboardUID: string, panelName: string, up: Fetches, now: int)
    requires up.dashboard(dashboardUID).Decoded?
    requires PanelsOf(g, dashboardUID, [panelName], up, now).Success?
    ensures PanelsOf(g, dashboardUID, [panelName], up, now).value.Keys ==
      set p | p in DataOf(up.dashboard(dashboardUID).body).panels && p.title == panelName :: p.id
  {
    var panels := DataOf(up.dashboard(dashboardUID).body).panels;
    PanelsIds(g, dashboardUID, [panelName], up, now);
    var names := set i | 0 <= i < |[panelName]| :: [panelName][i];
    assert names == {panelName} by {
      assert [panelName][0] in names;
    }
    FilterByTitlesMembers(panels, names);
  }

  /** The value-fetch loop of `Panels`: fetch each panel's values and store
      its joined view under its id. */
  method CollectPanels(g: Service, dashboardUID: string, now: int, alertStates: map<int, Alert>,
                       datasource: string -> Response<DatasourceDTO>, panels: seq<PanelData>)
    returns (r: Result<map<int, Panel>>)
    ensures r == Accumulate(g, dashboardUID, now, alertStates, datasource, panels)
  {
    var result: map<int, Panel> := map[];
    for i := 0 to |panels|
      invariant Accumulate(g, dashboardUID, now, alertStates, datasource, panels[..i]) == Success(result)
    {
      var p := panels[i];
      assert panels[..i + 1][..i] == panels[..i];
      var currentValues := CurrentValues(p.exprs, datasource);
      if currentValues.Failure? {
        AccumulateFailureFinal(g, dashboardUID, now, alertStates, datasource, panels, i + 1);
        return Failure(ValuesFailed(currentValues.error));
      }
      ghost var before := result;
      result := result[p.id := Panel(p.title, ImageURL(g, dashboardUID, p.id, now), p.alert, currentValues.value)];
      if p.id in alertStates {
        var state := alertStates[p.id];
        var panel := result[p.id];
        panel := panel.(alert := panel.alert.(state := state.state, name := state.name));
        result := result[p.id := panel];
      }
      assert result == before[p.id := JoinedPanel(g, dashboardUID, now, alertStates, p, currentValues.value)];
    }
    assert panels[..|panels|] == panels;
    return Success(result);
  }

  /** `Panels`, with the HTTP calls replaced by `up` and the clock by `now`.
      The result lists the panel map's entries in an unspecified order. */
  method Panels(g: Service, dashboardUID: string, filterPanelNames: seq<string>, up: Fetches, now: int)
    returns (r: Result<seq<Panel>>)
    ensures r.Failure? <==> PanelsOf(g, dashboardUID, filterPanelNames, up, now).Failure?
    ensures r.Failure? ==> r.error == PanelsOf(g, dashboardUID, filterPanelNames, up, now).error
    ensures r.Success? ==> multiset(r.value) == ValueCount(PanelsOf(g, dashboardUID, filterPanelNames, up, now).value)
  {
    var dashboardResp := up.dashboard(dashboardUID);
    if dashboardResp.Failed? {
      return Failure(DashboardFailed(Transport(dashboardResp.msg)));
    }
    var dashboard := Data(dashboardResp.body);

    var alertResp := up.alertStates(dashboard.id);
    if alertResp.Failed? {
      return Failure(AlertsFailed(Transport(alertResp.msg)));
    }
    var alertStates := ToAlertMap(alertResp.body);

    var panels := SelectPanels(dashboard.panels, filterPanelNames);

    var result := CollectPanels(g, dashboardUID, now, alertStates, up.datasource, panels);
    if result.Failure? {
      return Failure(result.error);
    }
    var slice := ToSlice(result.value);
    return Success(slice);
  }

  /** `GetGrafanaPanel`: `Panels` filtered by one name must yield exactly one panel. */
  method GetGrafanaPanel(g: Service, panelName: string, dashboardID: string, up: Fetches, now: int)
    returns (r: Result<Panel>)
    ensures PanelsOf(g, dashboardID, [panelName], up, now).Failure? ==>
      r == Failure(PanelsFailed(PanelsOf(g, dashboardID, [panelName], up, now).error))
    ensures PanelsOf(g, dashboardID, [panelName], up, now).Success? ==>
      var found := PanelsOf(g, dashboardID, [panelName], up, now).value;
      && (r.Success? <==> |found| == 1)
      && (r.Success? ==> r.value in found.Values)
      && (r.Failure? ==> r.error == PanelNotFound(panelName))
  {
    var panels := Panels(g, dashboardID, [panelName], up, now);
    if panels.Failure? {
      return Failure(PanelsFailed(panels.error));
    }
    if |panels.value| == 1 {
      ValueCountSupport(PanelsOf(g, dashboardID, [panelName], up, now).value);
      assert panels.value[0] in multiset(panels.value);
      return Success(panels.value[0]);
    }
    return Failure(PanelNotFound(panelName));
  }
}
