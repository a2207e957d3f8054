/**
 * What a component gets back from `fetchDailyFromBackend(symbol, days)`. The promise
 * either rejects with an error message or resolves to a payload. The component looks at
 * its `data` field (`payload?.data`), which may be absent, through `labels` and `data`,
 * and either of those may be absent too.
 */
module Fetching {
  import opened Wrappers

  /** `realData`: the `labels` and `data` fields, each possibly absent. */
  datatype SeriesData = SeriesData(labels: Option<seq<string>>, data: Option<seq<real>>)

  /** A settled fetch: rejected with `e.message`, or resolved with `payload?.data`. */
  datatype Fetch = Rejected(message: string) | Resolved(realData: Option<SeriesData>)

  /** `realData?.labels?.length` is truthy. */
  predicate HasLabels(f: Fetch)
  {
    f.Resolved? && f.realData.Some? && f.realData.value.labels.Some? && |f.realData.value.labels.value| > 0
  }

  /** `realData?.data?.length` is truthy. */
  predicate HasData(f: Fetch)
  {
    f.Resolved? && f.realData.Some? && f.realData.value.data.Some? && |f.realData.value.data.value| > 0
  }

  /** `realData.labels`, once it is known to be there. */
  function LabelsOf(f: Fetch): seq<string>
    requires HasLabels(f)
  {
    f.realData.value.labels.value
  }
}
