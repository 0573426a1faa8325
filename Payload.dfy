/** The values that travel in event payloads and in the records the steps
    exchange, standing for the Python objects (`str`, lists, the list of
    `(url, content)` tuples, `dict`, `None`) the pipelines pass around. */
module Payload {

  /** One `(url, content)` pair of a fetch batch. */
  datatype FetchResult = FetchResult(url: string, content: string)

  datatype Value =
    | Null
    | Str(s: string)
    | StrList(items: seq<string>)
    | Results(pairs: seq<FetchResult>)
    | Dict(fields: map<string, Value>)

  /** A Python `dict` with string keys. */
  type Record = map<string, Value>

  /** The exceptions a step function can raise on a malformed payload. */
  datatype StepError =
    | KeyError(key: string)     // `data[key]` on a missing key
    | TypeError(what: string)   // a value of the wrong kind

  datatype Result<T> = Ok(value: T) | Err(error: StepError)

  datatype Option<T> = None | Some(value: T)

  /** `d.get(key, default)` */
  function Get(d: Record, key: string, default: Value): (v: Value)
    ensures key in d ==> v == d[key]
    ensures key !in d ==> v == default
  {
    if key in d then d[key] else default
  }
}
