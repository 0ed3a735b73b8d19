/** What the transports emit: lines on the process's standard streams and records shipped to graylog. */
module Sinks {
  import opened JsValues
  import opened Levels

  datatype Stream = Stdout | Stderr

  /** The `colors` style a console line is wrapped in; the script transport writes unstyled lines. */
  datatype Style = MagentaBold | Magenta | RedBold | Red | Yellow | GreenBold | Green | Gray | Unstyled

  /** The message part of a console line: text concatenated as is, or `util.inspect` of an object. */
  datatype Body = Plain(text: string) | Inspected(fields: map<string, Value>)

  /** The text handed to `console.log` / `console.error`. */
  datatype Text =
    | Prefixed(prefix: string, body: Body)      // console transport: prefix + message
    | Json(fields: map<string, Value>)          // script transport: `JSON.stringify` of a stamped object
    | Passed(v: Value)                          // script transport: a non-object message as it came

  /** What the graylog transport receives (its wire format is not part of this model). */
  datatype Payload = Record(fields: map<string, Value>) | Scalar(v: Value)

  datatype Event =
    | Write(stream: Stream, style: Style, text: Text)
    | Ship(severity: Severity, payload: Payload)

  /** The observable output of the process, in order. */
  class Sink {
    var events: seq<Event>

    constructor ()
      ensures events == []
    {
      events := [];
    }

    method Emit(e: Event)
      modifies this
      ensures events == old(events) + [e]
    {
      events := events + [e];
    }
  }

  /** The snapshot of a value at the moment a transport receives it. */
  function Snapshot(v: Value): (p: Payload)
    reads Footprint(v)
    ensures v.Ref? <==> p.Record?
  {
    if v.Ref? then Record(v.obj.fields) else Scalar(v)
  }
}
