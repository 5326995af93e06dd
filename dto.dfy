/** The decoded upstream records of dto.go and their conversions into the
    model: the alert map, dashboard resolution and datasource value
    extraction. */
module Dto {
  import opened Model

  /** The panel type of a layout row, which carries no metrics. */
  const RowPanelType := "row"

  // ---------------------------------------------------------------------
  // Alert states
  // ---------------------------------------------------------------------

  /** One record of the alert-state listing. */
  datatype AlertStateDTO = AlertStateDTO(
    id: int, dashboardID: int, dashboardUID: string, dashboardSlug: string,
    panelID: int, name: string, state: string, newStateDate: string)

  /** The alert map built from `states`: each record in turn sets the entry
      of its panel, so a later record for the same panel replaces an earlier one. */
  function AlertMapOf(states: seq<AlertStateDTO>): map<int, Alert>
    decreases |states|
  {
    if states == [] then map[]
    else
      var a := states[|states| - 1];
      AlertMapOf(states[..|states| - 1])[a.panelID := Alert(a.name, a.state, [])]
  }

  /** No later record of `states` names the panel of record `j`. */
  predicate LastForPanel(states: seq<AlertStateDTO>, j: int)
    requires 0 <= j < |states|
  {
    forall k :: j < k < |states| ==> states[k].panelID != states[j].panelID
  }

  /** The alert map has an entry for exactly the panels the records name. */
  lemma {:induction false} AlertMapKeys(states: seq<AlertStateDTO>)
    ensures AlertMapOf(states).Keys == set a | a in states :: a.panelID
    decreases |states|
  {
    if states != [] {
      var init := states[..|states| - 1];
      AlertMapKeys(init);
      assert states == init + [states[|states| - 1]];
    }
  }

  /** The entry of a panel comes from its last record: that record's name and
      state, with no conditions. */
  lemma {:induction false} AlertMapLastWins(states: seq<AlertStateDTO>, j: int)
    requires 0 <= j < |states| && LastForPanel(states, j)
    ensures states[j].panelID in AlertMapOf(states)
    ensures AlertMapOf(states)[states[j].panelID] == Alert(states[j].name, states[j].state, [])
    decreases |states|
  {
    var n := |states|;
    if j < n - 1 {
      var init := states[..n - 1];
      assert LastForPanel(init, j) by {
        forall k | j < k < |init| ensures init[k].panelID != init[j].panelID {
          assert init[k] == states[k];
        }
      }
      AlertMapLastWins(init, j);
    }
  }

  /** `alertStatesDTO.ToAlertMap`. */
  method ToAlertMap(states: seq<AlertStateDTO>) returns (alertsMap: map<int, Alert>)
    ensures alertsMap == AlertMapOf(states)
  {
    alertsMap := map[];
    for i := 0 to |states|
      invariant alertsMap == AlertMapOf(states[..i])
    {
      var a := states[i];
      assert states[..i + 1][..i] == states[..i];
      alertsMap := alertsMap[a.panelID := Alert(a.name, a.state, [])];
    }
    assert states[..|states|] == states;
  }

  // ---------------------------------------------------------------------
  // Dashboard resolution
  // ---------------------------------------------------------------------

  /** The evaluator of an alert condition. */
  datatype EvaluatorDTO = EvaluatorDTO(params: seq<Float64>, evaluatorType: string)

  /** An alert condition as declared; only its evaluator is read. */
  datatype ConditionDTO = ConditionDTO(evaluator: EvaluatorDTO)

  /** The alert block of a panel; only its name and conditions are read. */
  datatype PanelAlertDTO = PanelAlertDTO(conditions: seq<ConditionDTO>, name: string)

  /** A metric target of a panel. */
  datatype TargetDTO = TargetDTO(expr: string, legendFormat: string)

  datatype PanelDTO = PanelDTO(
    id: int, alert: PanelAlertDTO, targets: seq<TargetDTO>, title: string, panelType: string)

  datatype DashboardBody = DashboardBody(id: int, panels: seq<PanelDTO>, uid: string)

  /** The decoded dashboard response. */
  datatype DashboardDTO = DashboardDTO(dashboard: DashboardBody)

  /** The queries of the targets, one per target, in target order. */
  function ExprsOf(targets: seq<TargetDTO>): (r: seq<Expr>)
    ensures |r| == |targets|
    ensures forall i :: 0 <= i < |targets| ==>
      r[i].query == targets[i].expr && r[i].legendFormat == targets[i].legendFormat
    decreases |targets|
  {
    if targets == [] then []
    else
      var t := targets[|targets| - 1];
      ExprsOf(targets[..|targets| - 1]) + [Expr(t.expr, t.legendFormat)]
  }

  /** The conditions of the declared ones, one per declaration, in order,
      each carrying the evaluator's type and parameters. */
  function ConditionsOf(conditions: seq<ConditionDTO>): (r: seq<Condition>)
    ensures |r| == |conditions|
    ensures forall i :: 0 <= i < |conditions| ==>
      r[i].conditionType == conditions[i].evaluator.evaluatorType &&
      r[i].values == conditions[i].evaluator.params
    decreases |conditions|
  {
    if conditions == [] then []
    else
      var c := conditions[|conditions| - 1];
      ConditionsOf(conditions[..|conditions| - 1]) + [Condition(c.evaluator.evaluatorType, c.evaluator.params)]
  }

  /** A non-row panel after resolution: same id and title, its targets as
      queries, and its declared alert with an empty state. */
  function ResolvedPanel(p: PanelDTO): PanelData
  {
    PanelData(p.id, p.title, ExprsOf(p.targets), Alert(p.alert.name, "", ConditionsOf(p.alert.conditions)))
  }

  /** The resolved panels of a declared panel list: rows dropped, the rest in order. */
  function ResolvePanels(panels: seq<PanelDTO>): seq<PanelData>
    decreases |panels|
  {
    if panels == [] then []
    else
      var p := panels[|panels| - 1];
      ResolvePanels(panels[..|panels| - 1]) + (if p.panelType == RowPanelType then [] else [ResolvedPanel(p)])
  }

  /** The dashboard data of a decoded dashboard response. */
  function DataOf(d: DashboardDTO): (r: DashboardData)
    ensures r.id == d.dashboard.id
  {
    DashboardData(d.dashboard.id, ResolvePanels(d.dashboard.panels))
  }

  /** Resolution works panel by panel, so it keeps the order of the panels. */
  lemma {:induction false} ResolvePanelsAppend(a: seq<PanelDTO>, b: seq<PanelDTO>)
    ensures ResolvePanels(a + b) == ResolvePanels(a) + ResolvePanels(b)
    decreases |b|
  {
    if b == [] {
      assert a + b == a;
    } else {
      var init := b[..|b| - 1];
      assert (a + b)[..|a + b| - 1] == a + init;
      assert (a + b)[|a + b| - 1] == b[|b| - 1];
      ResolvePanelsAppend(a, init);
    }
  }

  /** A resolved panel is exactly the resolution of a declared panel that is not a row. */
  lemma {:induction false} ResolvePanelsMembers(panels: seq<PanelDTO>)
    ensures forall q :: q in ResolvePanels(panels) <==>
      exists p :: p in panels && p.panelType != RowPanelType && q == ResolvedPanel(p)
    decreases |panels|
  {
    if panels != [] {
      var init := panels[..|panels| - 1];
      ResolvePanelsMembers(init);
      assert panels == init + [panels[|panels| - 1]];
    }
  }

  /** At most one resolved panel per declared panel; exactly one each when there are no rows. */
  lemma {:induction false} ResolvePanelsLength(panels: seq<PanelDTO>)
    ensures |ResolvePanels(panels)| <= |panels|
    ensures (forall i :: 0 <= i < |panels| ==> panels[i].panelType != RowPanelType) ==>
      |ResolvePanels(panels)| == |panels|
    decreases |panels|
  {
    if panels != [] {
      ResolvePanelsLength(panels[..|panels| - 1]);
    }
  }

  /** `dashboardDTO.Data`. */
  method Data(d: DashboardDTO) returns (result: DashboardData)
    ensures result == DataOf(d)
  {
    var panels := d.dashboard.panels;
    var resolved: seq<PanelData> := [];
    for i := 0 to |panels|
      invariant resolved == ResolvePanels(panels[..i])
    {
      var p := panels[i];
      assert panels[..i + 1][..i] == panels[..i];
      if p.panelType == RowPanelType {
        continue;
      }
      var exprs: seq<Expr> := [];
      for t := 0 to |p.targets|
        invariant exprs == ExprsOf(p.targets[..t])
      {
        assert p.targets[..t + 1][..t] == p.targets[..t];
        exprs := exprs + [Expr(p.targets[t].expr, p.targets[t].legendFormat)];
      }
      assert p.targets[..|p.targets|] == p.targets;
      var alert := Alert(p.alert.name, "", []);
      for c := 0 to |p.alert.conditions|
        invariant alert == Alert(p.alert.name, "", ConditionsOf(p.alert.conditions[..c]))
      {
        var cond := p.alert.conditions[c];
        assert p.alert.conditions[..c + 1][..c] == p.alert.conditions[..c];
        alert := alert.(conditions := alert.conditions + [Condition(cond.evaluator.evaluatorType, cond.evaluator.params)]);
      }
      assert p.alert.conditions[..|p.alert.conditions|] == p.alert.conditions;
      resolved := resolved + [PanelData(p.id, p.title, exprs, alert)];
    }
    assert panels[..|panels|] == panels;
    result := DashboardData(d.dashboard.id, resolved);
  }

  // ---------------------------------------------------------------------
  // Datasource values
  // ---------------------------------------------------------------------

  /** A decoded JSON scalar of a sample: a string, or anything else. */
  datatype JsonValue = JString(str: string) | JOther

  datatype MetricDTO = MetricDTO(name: string, instance: string, job: string, metricLabel: string)

  /** One series: its labels and its samples, each sample a JSON array
      (timestamp, value). */
  datatype SeriesDTO = SeriesDTO(metric: MetricDTO, values: seq<seq<JsonValue>>)

  datatype DataDTO = DataDTO(resultType: string, result: seq<SeriesDTO>)

  /** The decoded datasource response. */
  datatype DatasourceDTO = DatasourceDTO(status: string, data: DataDTO, error: string)

  /** A series that wipes the whole extraction: it has no samples, or its
      first sample is a pair whose value is not a string. */
  predicate Malformed(s: SeriesDTO)
  {
    |s.values| == 0 || (|s.values[0]| == 2 && !s.values[0][1].JString?)
  }

  /** A series that yields a value: its first sample is a pair whose value is a string. */
  predicate Yields(s: SeriesDTO)
  {
    |s.values| > 0 && |s.values[0]| == 2 && s.values[0][1].JString?
  }

  /** The value a yielding series contributes: its label and its first sample's value. */
  function YieldedValue(s: SeriesDTO): LabelValue
    requires Yields(s)
  {
    LabelValue(s.metric.metricLabel, s.values[0][1].str)
  }

  /** The values of the yielding series, in series order. */
  function CollectSeries(series: seq<SeriesDTO>): (r: seq<LabelValue>)
    ensures |r| <= |series|
    decreases |series|
  {
    if series == [] then []
    else
      var s := series[|series| - 1];
      CollectSeries(series[..|series| - 1]) + (if Yields(s) then [YieldedValue(s)] else [])
  }

  /** The values extracted from a response: nothing at all if any series is
      malformed, otherwise the values of the yielding series. */
  function LabelValuesOf(d: DatasourceDTO): seq<LabelValue>
  {
    var series := d.data.result;
    if exists i :: 0 <= i < |series| && Malformed(series[i]) then []
    else CollectSeries(series)
  }

  /** Extraction keeps series order. */
  lemma {:induction false} CollectSeriesAppend(a: seq<SeriesDTO>, b: seq<SeriesDTO>)
    ensures CollectSeries(a + b) == CollectSeries(a) + CollectSeries(b)
    decreases |b|
  {
    if b == [] {
      assert a + b == a;
    } else {
      var init := b[..|b| - 1];
      assert (a + b)[..|a + b| - 1] == a + init;
      assert (a + b)[|a + b| - 1] == b[|b| - 1];
      CollectSeriesAppend(a, init);
    }
  }

  /** An extracted value is exactly the label and first-sample value of a yielding series. */
  lemma {:induction false} CollectSeriesMembers(series: seq<SeriesDTO>)
    ensures forall lv :: lv in CollectSeries(series) <==>
      exists s :: s in series && Yields(s) && lv == YieldedValue(s)
    decreases |series|
  {
    if series != [] {
      var init := series[..|series| - 1];
      CollectSeriesMembers(init);
      assert series == init + [series[|series| - 1]];
    }
  }

  /** A malformed series anywhere empties the result, even when earlier
      series yielded values; otherwise every yielding series contributes its
      value and nothing else is returned. */
  lemma LabelValuesMembers(d: DatasourceDTO)
    ensures |LabelValuesOf(d)| <= |d.data.result|
    ensures (exists i :: 0 <= i < |d.data.result| && Malformed(d.data.result[i])) ==> LabelValuesOf(d) == []
    ensures (forall i :: 0 <= i < |d.data.result| ==> !Malformed(d.data.result[i])) ==>
      forall lv :: lv in LabelValuesOf(d) <==>
        exists s :: s in d.data.result && Yields(s) && lv == YieldedValue(s)
  {
    CollectSeriesMembers(d.data.result);
  }

  /** Two series lists that agree on each series' label and first sample. */
  predicate SameFirstSamples(a: seq<SeriesDTO>, b: seq<SeriesDTO>)
  {
    |a| == |b| &&
    forall i :: 0 <= i < |a| ==>
      a[i].metric.metricLabel == b[i].metric.metricLabel &&
      (|a[i].values| == 0 <==> |b[i].values| == 0) &&
      (|a[i].values| > 0 ==> a[i].values[0] == b[i].values[0])
  }

  lemma {:induction false} CollectSeriesFirstSampleOnly(a: seq<SeriesDTO>, b: seq<SeriesDTO>)
    requires SameFirstSamples(a, b)
    ensures CollectSeries(a) == CollectSeries(b)
    decreases |a|
  {
    if a != [] {
      var n := |a|;
      assert SameFirstSamples(a[..n - 1], b[..n - 1]) by {
        forall i | 0 <= i < n - 1
          ensures a[..n - 1][i] == a[i] && b[..n - 1][i] == b[i]
        {
        }
      }
      CollectSeriesFirstSampleOnly(a[..n - 1], b[..n - 1]);
    }
  }

  /** Extraction reads only each series' label and first sample. */
  lemma LabelValuesFirstSampleOnly(d1: DatasourceDTO, d2: DatasourceDTO)
    requires SameFirstSamples(d1.data.result, d2.data.result)
    ensures LabelValuesOf(d1) == LabelValuesOf(d2)
  {
    var a, b := d1.data.result, d2.data.result;
    assert forall i :: 0 <= i < |a| ==> (Malformed(a[i]) <==> Malformed(b[i]));
    CollectSeriesFirstSampleOnly(a, b);
  }

  /** `datasourceDTO.ToLabelValues`. */
  method ToLabelValues(d: DatasourceDTO) returns (currentLabelValues: seq<LabelValue>)
    ensures currentLabelValues == LabelValuesOf(d)
  {
    var series := d.data.result;
    currentLabelValues := [];
    for i := 0 to |series|
      invariant forall k :: 0 <= k < i ==> !Malformed(series[k])
      invariant currentLabelValues == CollectSeries(series[..i])
    {
      var r := series[i];
      assert series[..i + 1][..i] == series[..i];
      if |r.values| == 0 {
        assert Malformed(series[i]);
        return [];
      }
      var values := r.values[0];
      if |values| == 2 {
        match values[1]
        case JString(value) =>
          currentLabelValues := currentLabelValues + [LabelValue(r.metric.metricLabel, value)];
        case JOther =>
          assert Malformed(series[i]);
          return [];
      }
    }
    assert series[..|series|] == series;
  }
}
