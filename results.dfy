/** Error values and the Result wrapper shared by every module.

    The Go code reports failures as `error` values built with
    `fmt.Errorf`/`errors.New`; here each way of building one is a
    constructor, so a contract can say which failure was reported and
    what it wraps. */
module Results {

  datatype Result<+T> = Success(value: T) | Failure(error: Error)

  /** The failures the core can report. */
  datatype Error =
    /** a transport or decoding failure of an HTTP call, with its message */
    | Transport(msg: string)
    /** a datasource response whose `error` field is non-empty */
    | UpstreamError(msg: string)
    /** `currentValues`: the datasource call for `query` failed */
    | QueryFailed(query: string, legendFormat: string, cause: Error)
    /** `Panels`: the dashboard fetch failed */
    | DashboardFailed(cause: Error)
    /** `Panels`: the alert-state fetch failed */
    | AlertsFailed(cause: Error)
    /** `Panels`: the value fetch of some panel failed */
    | ValuesFailed(cause: Error)
    /** `GetGrafanaPanel`: `Panels` failed */
    | PanelsFailed(cause: Error)
    /** `GetGrafanaPanel`: not exactly one panel carries the name */
    | PanelNotFound(name: string)
}
