/** The record types of model.go and `panelMap.ToSlice`. */
module Model {

  /** A 64-bit float, kept as its IEEE-754 bit pattern: the core only copies
      condition parameters, it never computes with them. */
  datatype Float64 = Float64(bits: bv64)

  /** One threshold of an alert: evaluator type ("gt", "lt", ...) and parameters. */
  datatype Condition = Condition(conditionType: string, values: seq<Float64>)

  datatype Alert = Alert(name: string, state: string, conditions: seq<Condition>)

  /** One (series label, value) pair of a query result. */
  datatype LabelValue = LabelValue(labelName: string, value: string)

  /** The values one query returned. */
  datatype CurrentValue = CurrentValue(query: string, values: seq<LabelValue>)

  /** The rendered-image reference of a panel: the arguments the image URL is
      formatted from, in the order the format string takes them. */
  datatype ImageRef = ImageRef(
    baseURL: string, dashboardUID: string, fromMs: int, toMs: int,
    panelID: int, width: int, height: int, timezone: string)

  /** The aggregated view of one panel. */
  datatype Panel = Panel(title: string, image: ImageRef, alert: Alert, currentValues: seq<CurrentValue>)

  /** One metric query of a panel with its legend template. */
  datatype Expr = Expr(query: string, legendFormat: string)

  /** A dashboard panel after resolution. */
  datatype PanelData = PanelData(id: int, title: string, exprs: seq<Expr>, alert: Alert)

  datatype DashboardData = DashboardData(id: int, panels: seq<PanelData>)

  datatype ImageAttributes = ImageAttributes(width: int, height: int, timezone: string)

  /** The multiset of the values of `m`, one occurrence per key. */
  ghost function ValueCount<K, V>(m: map<K, V>): (r: multiset<V>)
    ensures |r| == |m|
    decreases |m|
  {
    if m == map[] then multiset{}
    else
      var k :| k in m;
      assert (m - {k}).Keys == m.Keys - {k};
      ValueCount(m - {k}) + multiset{m[k]}
  }

  /** Removing two keys in either order gives the same map. */
  lemma RemoveCommutes<K, V>(m: map<K, V>, a: K, b: K)
    ensures m - {a} - {b} == m - {b} - {a}
  {
    assert m - {a} - {b} == m - {a, b};
  }

  /** Removing a present key removes one entry. */
  lemma RemoveShrinks<K, V>(m: map<K, V>, a: K)
    requires a in m
    ensures |m - {a}| == |m| - 1
  {
    assert (m - {a}).Keys == m.Keys - {a};
  }

  /** Taking out any one key takes out exactly its value. */
  lemma {:induction false} ValueCountRemove<K, V>(m: map<K, V>, k: K)
    requires k in m
    ensures ValueCount(m) == ValueCount(m - {k}) + multiset{m[k]}
    decreases |m|
  {
    assert exists k' :: k' in m && ValueCount(m) == ValueCount(m - {k'}) + multiset{m[k']} by {
      assert m != map[];
    }
    var k' :| k' in m && ValueCount(m) == ValueCount(m - {k'}) + multiset{m[k']};
    if k' != k {
      RemoveShrinks(m, k);
      RemoveShrinks(m, k');
      ValueCountRemove(m - {k'}, k);
      ValueCountRemove(m - {k}, k');
      RemoveCommutes(m, k', k);
    }
  }

  /** A value occurs in `ValueCount(m)` exactly when some key maps to it. */
  lemma {:induction false} ValueCountSupport<K, V>(m: map<K, V>)
    ensures forall v :: v in ValueCount(m) <==> v in m.Values
    decreases |m|
  {
    if m != map[] {
      var k :| k in m;
      ValueCountRemove(m, k);
      assert (m - {k}).Keys == m.Keys - {k};
      ValueCountSupport(m - {k});
      forall v ensures v in ValueCount(m) <==> v in m.Values {
        if v in m.Values && v != m[k] {
          var k2 :| k2 in m && m[k2] == v;
          assert k2 in m - {k};
        }
      }
    }
  }

  /** Some key of a non-empty map (the next key Go's `range` visits). */
  method AnyKey<K, V>(m: map<K, V>) returns (k: K)
    requires m.Keys != {}
    ensures k in m
  {
    k :| k in m;
  }

  /** `panelMap.ToSlice`: every value of the map, once per key, in an order
      the model leaves open (Go's map iteration order is unspecified). */
  method ToSlice(p: map<int, Panel>) returns (result: seq<Panel>)
    ensures multiset(result) == ValueCount(p)
    ensures |result| == |p|
    ensures forall panel :: panel in result <==> panel in p.Values
  {
    result := [];
    var rest := p;
    while rest.Keys != {}
      invariant multiset(result) + ValueCount(rest) == ValueCount(p)
      decreases |rest|
    {
      var id := AnyKey(rest);
      ValueCountRemove(rest, id);
      RemoveShrinks(rest, id);
      result := result + [rest[id]];
      rest := rest - {id};
    }
    ValueCountSupport(p);
    assert forall panel :: panel in result <==> panel in multiset(result);
  }
}
