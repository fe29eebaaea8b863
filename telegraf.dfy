/** The collector-side types both input plugins work with: the dynamically
    typed values a metric field may hold, the metric record itself, Go errors
    (kept as their text), and the accumulator that receives records and
    errors. The accumulator is an external collaborator: it only records what
    it is handed, in order. */
module Telegraf {

  datatype Option<+T> = None | Some(value: T)

  datatype Result<+T, +E> = Success(value: T) | Failure(error: E)

  /** A Go `error`, represented by the text its Error() method returns. */
  datatype Error = Error(text: string)

  /** A dynamically typed value (a Go `interface{}`) as a database driver
      scans it or a plugin builds it. Floating point numbers are kept as
      reals; timestamps as nanoseconds since the epoch. */
  datatype Value =
    | VString(s: string)
    | VInt(i: int)
    | VFloat(f: real)
    | VBool(b: bool)
    | VBytes(bytes: seq<bv8>)
    | VTime(unixNano: int)
    | VNull

  /** One record handed to the accumulator: measurement name, fields, tags.
      The timestamp is not modelled. */
  datatype Metric = Metric(measurement: string, fields: map<string, Value>, tags: map<string, string>)

  /** The accumulator: every AddFields call appends one record, every AddError
      call (including one with a nil error) appends one entry. */
  class Accumulator {
    var metrics: seq<Metric>
    var errorCalls: seq<Option<Error>>

    constructor ()
      ensures metrics == [] && errorCalls == []
    {
      metrics := [];
      errorCalls := [];
    }

    method AddFields(measurement: string, fields: map<string, Value>, tags: map<string, string>)
      modifies this
      ensures metrics == old(metrics) + [Metric(measurement, fields, tags)]
      ensures errorCalls == old(errorCalls)
    {
      metrics := metrics + [Metric(measurement, fields, tags)];
    }

    method AddError(err: Option<Error>)
      modifies this
      ensures errorCalls == old(errorCalls) + [err]
      ensures metrics == old(metrics)
    {
      errorCalls := errorCalls + [err];
    }
  }
}
