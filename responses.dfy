/**
 * The JSON objects the Energy Charts API returns, reduced to the keys the
 * normaliser reads.
 */
module Responses {
  import opened Wrappers

  /** A cell of a series: a JSON number or `null`. Nothing in the core computes with it. */
  datatype Value = Number(x: real) | Null

  /** One entry of the index before pandas turns it into a `DatetimeIndex`. */
  datatype TimePoint =
      /** An element of `unix_seconds`: seconds since the epoch, read as UTC. */
    | EpochSeconds(seconds: int)
      /** An element of `time`: date/time text, kept as written. */
    | TimeText(text: string)

  /** A named series: an entry `{"name": ..., "data": [...]}` and also a column of the table. */
  datatype Series = Series(name: string, values: seq<Value>)

  /** The keys the core reads, one per field of `Response` besides `otherKeys`. */
  const ModelledKeys: set<string> :=
    {"unix_seconds", "time", "forecast_values", "production_type", "data", "production_types", "countries"}

  /**
   * A response object. Each field is one key the core reads, `None` when the
   * key is absent; `otherKeys` holds every other key the object has, so a
   * value standing for a JSON object satisfies `Keyed()`.
   */
  datatype Response = Response(
    unixSeconds: Option<seq<int>>,
    time: Option<seq<string>>,
    forecastValues: Option<seq<Value>>,
    productionType: Option<string>,
    data: Option<seq<Value>>,
    productionTypes: Option<seq<Series>>,
    countries: Option<seq<Series>>,
    otherKeys: set<string>)
  {
    /** `otherKeys` holds none of the keys that have a field of their own. */
    predicate Keyed() {
      otherKeys !! ModelledKeys
    }

    /** `not response`: the object has no key at all. */
    predicate IsEmpty() {
      && unixSeconds.None? && time.None? && forecastValues.None? && productionType.None?
      && data.None? && productionTypes.None? && countries.None? && otherKeys == {}
    }
  }

  /** The empty object `{}`, which `query_API` returns for a failed request. */
  const EmptyResponse := Response(None, None, None, None, None, None, None, {})
}
