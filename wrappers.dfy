/** Option and Result, the two shapes the Rust code returns its outcomes in. */
module Wrappers {

  datatype Option<+T> = None | Some(value: T)
  {
    /** `unwrap_or`. */
    function GetOr(default: T): (r: T)
      ensures Some? ==> r == value
      ensures None? ==> r == default
    {
      if Some? then value else default
    }
  }

  datatype Result<+T, +E> = Ok(value: T) | Err(error: E)

  /** A value in seconds; every time of the system is an integer number of seconds. */
  const MINUTE: int := 60
  const HOUR: int := 3600
  const DAY: int := 86400

  /** The overall outcome of one call to the language-model collaborator whose
      reply is then parsed as JSON: the call failed, the reply did not parse,
      or it parsed to a value. Each carries the error text the code formats. */
  datatype LlmReply<+T> = CallError(error: string) | Unparsable(error: string) | Parsed(value: T)
  {
    function AsOption(): (r: Option<T>)
      ensures r.Some? <==> Parsed?
      ensures r.Some? ==> r.value == value
    {
      if Parsed? then Some(value) else None
    }
  }
}
