/** The non-HTTP logic of client.go: URL normalisation, the datasource
    error check and the legend relabelling of `currentValues`. The HTTP
    calls themselves are replaced by their outcomes, given as inputs. */
module Client {
  import opened Model
  import opened Dto
  import opened Results

  /** The scheme prefix a client URL must carry (declared in grafana.go). */
  const HttpPrefix := "http://"

  /** The legend template that keeps the labels the datasource returned. */
  const MultipleLegendFormat := "{{label}}"

  /** The outcome of one HTTP call: a transport, status or decoding failure
      with its message, or the decoded body. */
  datatype Response<T> = Failed(msg: string) | Decoded(body: T)

  /** The `client` struct of client.go; its timeout and HTTP transport are
      not modelled. */
  datatype Connection = Connection(url: string, token: string)

  predicate HasPrefix(s: string, prefix: string)
  {
    |prefix| <= |s| && s[..|prefix|] == prefix
  }

  /** `sub` occurs in `s` at position `i`. */
  predicate OccursAt(s: string, sub: string, i: int)
  {
    0 <= i && i + |sub| <= |s| && s[i..i + |sub|] == sub
  }

  /** The first position at or after `from` where `sub` occurs in `s`, or -1. */
  function IndexFrom(s: string, sub: string, from: nat): (r: int)
    ensures r == -1 || (from <= r && OccursAt(s, sub, r))
    ensures forall i :: from <= i && (r == -1 || i < r) ==> !OccursAt(s, sub, i)
    decreases |s| - from
  {
    if |s| < from + |sub| then -1
    else if s[from..from + |sub|] == sub then from
    else IndexFrom(s, sub, from + 1)
  }

  /** Go's `strings.Index`, counted in characters: the first position where
      `sub` occurs in `s`, or -1. Go counts bytes; the two counts agree at
      position 0, the only position `newClient` tests. */
  function Index(s: string, sub: string): int
  {
    IndexFrom(s, sub, 0)
  }

  /** `strings.Index(url, prefix) == 0` is the prefix test. */
  lemma IndexZeroIsPrefix(s: string, prefix: string)
    ensures Index(s, prefix) == 0 <==> HasPrefix(s, prefix)
  {
    if HasPrefix(s, prefix) {
      assert OccursAt(s, prefix, 0);
    }
  }

  /** The URL normalisation of `newClient`: prepend "http://" unless the URL
      already starts with it. */
  function NormalizeURL(url: string): (r: string)
    ensures HasPrefix(r, HttpPrefix)
    ensures HasPrefix(url, HttpPrefix) ==> r == url
    ensures !HasPrefix(url, HttpPrefix) ==> r == HttpPrefix + url
  {
    IndexZeroIsPrefix(url, HttpPrefix);
    if Index(url, HttpPrefix) != 0 then HttpPrefix + url else url
  }

  /** Normalising a normalised URL changes nothing. */
  lemma NormalizeURLIdempotent(url: string)
    ensures NormalizeURL(NormalizeURL(url)) == NormalizeURL(url)
  {
  }

  /** `newClient`. */
  function NewClient(url: string, token: string): (c: Connection)
    ensures c.url == NormalizeURL(url) && c.token == token
    ensures HasPrefix(c.url, HttpPrefix)
    ensures HasPrefix(url, HttpPrefix) ==> c.url == url
    ensures !HasPrefix(url, HttpPrefix) ==> c.url == HttpPrefix + url
  {
    Connection(NormalizeURL(url), token)
  }

  /** The outcome of `datasource` for a given HTTP outcome: the transport
      error, the upstream error message when the response carries one, and
      only otherwise the extracted values. */
  function DatasourceOf(resp: Response<DatasourceDTO>): (r: Result<seq<LabelValue>>)
    ensures resp.Failed? ==> r == Failure(Transport(resp.msg))
    ensures resp.Decoded? && resp.body.error != "" ==> r == Failure(UpstreamError(resp.body.error))
    ensures resp.Decoded? && resp.body.error == "" ==> r == Success(LabelValuesOf(resp.body))
  {
    match resp
    case Failed(msg) => Failure(Transport(msg))
    case Decoded(d) => if d.error != "" then Failure(UpstreamError(d.error)) else Success(LabelValuesOf(d))
  }

  /** The values of one query after the legend rule: unchanged for the
      multi-series template, otherwise every label replaced by the template. */
  function RelabelOf(values: seq<LabelValue>, legendFormat: string): (r: seq<LabelValue>)
    ensures |r| == |values|
    ensures forall i :: 0 <= i < |values| ==> r[i].value == values[i].value
    ensures legendFormat == MultipleLegendFormat ==> r == values
    ensures legendFormat != MultipleLegendFormat ==> forall i :: 0 <= i < |r| ==> r[i].labelName == legendFormat
  {
    if legendFormat == MultipleLegendFormat then values
    else seq(|values|, i requires 0 <= i < |values| => values[i].(labelName := legendFormat))
  }

  /** The outcome of `currentValues`: the first failing query's error, or one
      relabelled value list per query. */
  function CurrentValuesOf(queries: seq<Expr>, datasource: string -> Response<DatasourceDTO>): Result<seq<CurrentValue>>
    decreases |queries|
  {
    if queries == [] then Success([])
    else
      var q := queries[|queries| - 1];
      match CurrentValuesOf(queries[..|queries| - 1], datasource)
      case Failure(e) => Failure(e)
      case Success(values) =>
        match DatasourceOf(datasource(q.query))
        case Failure(e) => Failure(QueryFailed(q.query, q.legendFormat, e))
        case Success(labelValues) => Success(values + [CurrentValue(q.query, RelabelOf(labelValues, q.legendFormat))])
  }

  /** Once a prefix of the queries has failed, the later queries do not matter. */
  lemma {:induction false} CurrentValuesFailureFinal(queries: seq<Expr>, i: nat, datasource: string -> Response<DatasourceDTO>)
    requires i <= |queries|
    requires CurrentValuesOf(queries[..i], datasource).Failure?
    ensures CurrentValuesOf(queries, datasource) == CurrentValuesOf(queries[..i], datasource)
    decreases |queries|
  {
    if i < |queries| {
      var init := queries[..|queries| - 1];
      assert init[..i] == queries[..i];
      CurrentValuesFailureFinal(init, i, datasource);
    } else {
      assert queries[..i] == queries;
    }
  }

  /** `currentValues` succeeds exactly when every query's datasource call
      succeeds, and then returns one entry per query, in query order, holding
      the query and its relabelled values. */
  lemma {:induction false} CurrentValuesSuccess(queries: seq<Expr>, datasource: string -> Response<DatasourceDTO>)
    ensures CurrentValuesOf(queries, datasource).Success? <==>
      forall i :: 0 <= i < |queries| ==> DatasourceOf(datasource(queries[i].query)).Success?
    ensures CurrentValuesOf(queries, datasource).Success? ==>
      var values := CurrentValuesOf(queries, datasource).value;
      |values| == |queries| &&
      forall i :: 0 <= i < |queries| ==>
        values[i] == CurrentValue(queries[i].query,
                                  RelabelOf(DatasourceOf(datasource(queries[i].query)).value, queries[i].legendFormat))
    decreases |queries|
  {
    if queries != [] {
      var n := |queries|;
      var init := queries[..n - 1];
      CurrentValuesSuccess(init, datasource);
      assert forall i :: 0 <= i < n - 1 ==> init[i] == queries[i];
    }
  }

  /** A failing `currentValues` reports the first failing query, with that
      query's datasource error. */
  lemma {:induction false} CurrentValuesFirstFailure(queries: seq<Expr>, datasource: string -> Response<DatasourceDTO>)
    requires CurrentValuesOf(queries, datasource).Failure?
    ensures exists i ::
              && 0 <= i < |queries|
              && DatasourceOf(datasource(queries[i].query)).Failure?
              && (forall k :: 0 <= k < i ==> DatasourceOf(datasource(queries[k].query)).Success?)
              && CurrentValuesOf(queries, datasource).error ==
                   QueryFailed(queries[i].query, queries[i].legendFormat, DatasourceOf(datasource(queries[i].query)).error)
    decreases |queries|
  {
    var n := |queries|;
    var init := queries[..n - 1];
    assert forall k :: 0 <= k < n - 1 ==> init[k] == queries[k];
    if CurrentValuesOf(init, datasource).Failure? {
      CurrentValuesFirstFailure(init, datasource);
      var i :| 0 <= i < |init| &&
        DatasourceOf(datasource(init[i].query)).Failure? &&
        (forall k :: 0 <= k < i ==> DatasourceOf(datasource(init[k].query)).Success?) &&
        CurrentValuesOf(init, datasource).error ==
          QueryFailed(init[i].query, init[i].legendFormat, DatasourceOf(datasource(init[i].query)).error);
      assert init[i] == queries[i];
    } else {
      CurrentValuesSuccess(init, datasource);
      assert DatasourceOf(datasource(queries[n - 1].query)).Failure?;
    }
  }

  /** `currentValues`, with the datasource HTTP call replaced by its outcome
      for each query string. */
  method CurrentValues(queries: seq<Expr>, datasource: string -> Response<DatasourceDTO>)
    returns (result: Result<seq<CurrentValue>>)
    ensures result == CurrentValuesOf(queries, datasource)
  {
    var values: seq<CurrentValue> := [];
    for q := 0 to |queries|
      invariant CurrentValuesOf(queries[..q], datasource) == Success(values)
    {
      var query := queries[q];
      assert queries[..q + 1][..q] == queries[..q];
      var r := DatasourceOf(datasource(query.query));
      if r.Failure? {
        CurrentValuesFailureFinal(queries, q + 1, datasource);
        return Failure(QueryFailed(query.query, query.legendFormat, r.error));
      }
      var currentLabelValues := r.value;
      if query.legendFormat != MultipleLegendFormat {
        for i := 0 to |currentLabelValues|
          invariant |currentLabelValues| == |r.value|
          invariant forall k :: 0 <= k < i ==> currentLabelValues[k] == r.value[k].(labelName := query.legendFormat)
          invariant forall k :: i <= k < |r.value| ==> currentLabelValues[k] == r.value[k]
        {
          currentLabelValues := currentLabelValues[i := currentLabelValues[i].(labelName := query.legendFormat)];
        }
      }
      assert currentLabelValues == RelabelOf(r.value, query.legendFormat);
      values := values + [CurrentValue(query.query, currentLabelValues)];
    }
    assert queries[..|queries|] == queries;
    return Success(values);
  }
}
