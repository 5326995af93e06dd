# grafana-monitors-client: panel aggregation, modelled in Dafny

This project models the core of `grafana-monitors-client`, a Go package that
collects the panels of a Grafana dashboard together with their alert states,
their current metric values and a rendered-image reference. It covers:

- **dashboard resolution** (`dashboardDTO.Data`): the decoded dashboard becomes
  an ordered list of panels; layout rows are dropped, targets become queries,
  declared alert conditions become `Condition`s;
- **the alert map** (`alertStatesDTO.ToAlertMap`) keyed by panel id, and
  **value extraction** (`datasourceDTO.ToLabelValues`), which takes the first
  sample of each series and returns nothing at all when a series is malformed;
- **legend relabelling** (`client.currentValues`), the datasource error check at
  the end of `client.datasource`, and the URL normalisation of `newClient`;
- **aggregation** (`grafana.Panels`): the title filter, the sequential value
  fetch per panel, the join with the alert map through a map keyed by panel
  id, and `panelMap.ToSlice`; around it `GetGrafanaPanel` and the twelve-hour
  window of `getImageURL`.

Every HTTP call is replaced by its outcome (`Client.Response`: a failure
message or the decoded body), supplied by the caller as a function of the
call's argument (`Grafana.Fetches`). The clock is a parameter `now`, in
nanoseconds since the epoch. Errors built with `fmt.Errorf`/`errors.New` are
the constructors of `Results.Error`, one per wrapping step of the core, with
`Transport` standing for every HTTP-side failure.

Modules follow the Go files: `Results` (error values), `Model` (model.go),
`Dto` (dto.go), `Client` (client.go), `Grafana` (grafana.go). Each loop of the
source is a Dafny method with the same loop, proved equal to a specification
function (`AlertMapOf`, `DataOf`, `LabelValuesOf`, `CurrentValuesOf`,
`Selected`, `Accumulate`, `PanelsOf`); the lemmas state what those functions
guarantee.

Notes on what the code does:

- the code fetches panel values one panel after another and stops at the
  first failing panel, returning that one error; it does not run the fetches
  concurrently nor collect every failure;
- a series with no samples, or whose first sample is a pair whose value is
  not a string, makes `ToLabelValues` return an empty result, not an error; `datasource`
  then succeeds with no values;
- `model.go:6` declares `Panel.Alert` as `*Alert`, while `grafana.go:72`
  stores an `Alert` value into it; the model stores the value.

## Model

| member | source | states |
|---|---|---|
| `Model.ValueCount` | model.go:31 | the multiset of a panel map's values, one per key, has as many elements as the map has entries |
| `Model.ValueCountRemove` | model.go:36-38 | removing any key from the map removes exactly that key's value from the multiset, whichever key is removed |
| `Model.ValueCountSupport` | model.go:36-38 | a panel is in the multiset exactly when some key of the map maps to it |
| `Model.ToSlice` | model.go:33-41 | the slice is a permutation of the map's values (one per key, nothing else, empty for an empty map), so its length is the number of entries |
| `Dto.AlertMapKeys` | dto.go:20-31 | the alert map has an entry for exactly the panel ids named by the records |
| `Dto.AlertMapLastWins` | dto.go:23-28 | the entry of a panel holds the name and state of the last record for that panel, with no conditions |
| `Dto.ToAlertMap` | dto.go:20-31 | the map filled by the loop is the alert map of the records |
| `Dto.ExprsOf` | dto.go:91-96 | one query per target, in target order, with the target's expression as query and its legend format copied |
| `Dto.ConditionsOf` | dto.go:102-108 | one condition per declared condition, in order, carrying the evaluator's type and parameters |
| `Dto.DataOf` | dto.go:78-79 | the resolved dashboard keeps the dashboard id |
| `Dto.ResolvePanelsAppend` | dto.go:81-111 | panels are resolved one by one, so the resolved list keeps the declared order |
| `Dto.ResolvePanelsMembers` | dto.go:81-111 | a resolved panel is exactly the resolution (same id and title, its queries, its alert with empty state) of a declared panel whose type is not "row" |
| `Dto.ResolvePanelsLength` | dto.go:81-84 | at most one resolved panel per declared panel, exactly one each when no panel is a row |
| `Dto.Data` | dto.go:78-114 | the nested loops build the resolved dashboard |
| `Dto.CollectSeries` | dto.go:141-153 | at most one value per series |
| `Dto.CollectSeriesAppend` | dto.go:136-155 | values come out in series order |
| `Dto.CollectSeriesMembers` | dto.go:141-153 | a collected value is exactly the label and first-sample string value of a series whose first sample is a pair with a string value |
| `Dto.LabelValuesMembers` | dto.go:133-158 | one malformed series (no samples, or a non-string value in a pair) empties the whole result, even after earlier values; otherwise the result holds exactly the values of the yielding series, at most one per series |
| `Dto.CollectSeriesFirstSampleOnly` | dto.go:141-153 | collection reads only each series' label and first sample |
| `Dto.LabelValuesFirstSampleOnly` | dto.go:136-153 | two responses that agree on every series' label and first sample extract the same values |
| `Dto.ToLabelValues` | dto.go:133-158 | the loop with its early returns computes the extraction above |
| `Client.IndexFrom` | client.go:36 | `strings.Index`: the result is -1 or a position where the prefix occurs, and no earlier position has it |
| `Client.IndexZeroIsPrefix` | client.go:36 | `strings.Index(url, prefix) == 0` holds exactly when the URL starts with the prefix |
| `Client.NormalizeURL` | client.go:36-38 | the normalised URL starts with "http://"; it is the URL itself when that already starts with "http://", else "http://" prepended |
| `Client.NormalizeURLIdempotent` | client.go:36-38 | normalising twice equals normalising once |
| `Client.NewClient` | client.go:35-45 | the client's URL is the normalised URL: the URL itself when it starts with "http://", else "http://" prepended; the token is kept |
| `Client.DatasourceOf` | client.go:187-191 | a transport failure is reported as such; a non-empty upstream error field is reported with its message before any extraction; otherwise the extracted values are returned |
| `Client.RelabelOf` | client.go:131-135 | relabelling keeps the number of values and every value; with the "{{label}}" template the labels are the datasource's, otherwise every label is the template |
| `Client.CurrentValuesFailureFinal` | client.go:125-129 | once a query has failed, later queries do not change the outcome |
| `Client.CurrentValuesSuccess` | client.go:122-144 | success exactly when every query's datasource call succeeds, and then one entry per query, in query order, with the query string and its relabelled values |
| `Client.CurrentValuesFirstFailure` | client.go:126-129 | a failure reports the first failing query with that query's datasource error, and no results |
| `Client.CurrentValues` | client.go:122-144 | the loop, with in-place relabelling, computes that outcome |
| `Grafana.NewGrafana` | grafana.go:27-32 | the client is the one `newClient` builds from the URL and token, so its URL is the normalised URL; the image attributes are kept |
| `Grafana.UnixMilliShift` | grafana.go:135-136 | moving an instant by whole milliseconds moves its millisecond count by as many |
| `Grafana.ImageURL` | grafana.go:127-142 | the window ends at `now` in milliseconds and `to - from` is 43,200,000 ms; base URL, dashboard UID, panel id and image attributes are passed through |
| `Grafana.FilterByTitlesMembers` | grafana.go:53-57 | the filter keeps exactly the panels whose title is a filter name |
| `Grafana.FilterByTitlesAppend` | grafana.go:53-57 | the filter keeps dashboard order |
| `Grafana.SelectPanels` | grafana.go:47-60 | without names every panel is processed; with names, the panels whose title is one of them, in dashboard order |
| `Grafana.JoinedPanel` | grafana.go:68-82 | a stored panel has its source title, image and fetched values; if the alert map has the panel id, the alert's name and state come from the map and its conditions from the dashboard, otherwise the dashboard alert is kept |
| `Grafana.AccumulateFailureFinal` | grafana.go:62-66 | once a panel's value fetch has failed, later panels do not change the outcome |
| `Grafana.AccumulateSuccess` | grafana.go:62-66 | aggregation succeeds exactly when every processed panel's value fetch succeeds |
| `Grafana.AccumulateFirstFailure` | grafana.go:62-66 | a failing aggregation reports the first failing panel's error and no panels |
| `Grafana.AccumulateKeys` | grafana.go:68 | the panel map has an entry for exactly the distinct ids of the processed panels |
| `Grafana.AccumulateLastWins` | grafana.go:68-82 | for duplicate ids the later panel wins: an id's entry is the joined view of the last panel with that id |
| `Grafana.AccumulateValues` | grafana.go:68-82 | every entry is the joined view of a processed panel with that id |
| `Grafana.PanelsFetchFailures` | grafana.go:36-45 | a failed dashboard fetch, or a failed alert fetch, ends `Panels` with that error whatever the datasource would answer |
| `Grafana.NoAlertStatesLeaveStateEmpty` | grafana.go:72-82 | with no alert records every returned panel has the empty alert state |
| `Grafana.CollectPanels` | grafana.go:62-83 | the value-fetch loop computes the aggregation above |
| `Grafana.Panels` | grafana.go:34-87 | `Panels` fails exactly when the dashboard fetch, the alert fetch or a value fetch fails, with that error; otherwise it returns a permutation of the panel map's values |
| `Grafana.PanelsIds` | grafana.go:47-68 | a successful `Panels` yields one panel per distinct id among the selected panels of the resolved dashboard |
| `Grafana.SinglePanelLookup` | grafana.go:115-123 | the lookup by one name finds one panel per distinct id among the resolved panels with that title, so it succeeds exactly when they share one id |
| `Grafana.GetGrafanaPanel` | grafana.go:115-125 | a panel is returned exactly when `Panels` filtered by the name returns one panel, and it is that panel; a `Panels` failure is wrapped; otherwise "not found" |

## Left out

- HTTP: request construction, the auth header, status checks, body reading and JSON decoding in `getDashboard`, `alertStates` and `datasource` (client.go:47-120, client.go:146-186) are replaced by their outcomes; a status or decoding failure is one `Response.Failed` message.
- The `dashboardId` query parameter that `alertStates` adds to a copy of the URL query (client.go:96) is never sent; the alert fetch is modelled as a function of the dashboard id all the same.
- `GetPanelPicture` (grafana.go:89-113) is an HTTP download with no logic of its own.
- grafana_mock.go is generated mock code and is not part of this model.
- The text of the image URL (`fmt.Sprintf` with `imageURLFormat`) is not produced: `ImageRef` records the arguments it is formatted from.
- Grafana.Panels: the clock is read once per call (`now`), whereas the Go code calls `time.Now()` for every panel's image; the start and end timestamps of each datasource query are part of the datasource outcome.
- The text of error messages is not modelled; each error is a constructor naming its wrapping step and cause.
- Floating-point condition parameters are only copied and are kept as bit patterns (`Model.Float64`).
- Fields of the decoded records that the core never reads (the condition operator, query and reducer, the alert's execution settings and notifications) are not modelled.
- Context cancellation and the HTTP timeout are not modelled; nothing in the core is concurrent.
