/**
 * The script transport: each method writes one line to stderr; an object message is first
 * stamped with the method's syslog severity and a timestamp and serialised as JSON.
 */
module ScriptLogger {
  import opened JsValues
  import opened Levels
  import opened Sinks
  import ConsoleLogger

  /** The numeric level `log(level)` is built with for each method. */
  function Code(m: Severity): (c: nat)
    ensures c <= 7
  {
    match m
    case Emerg => 0
    case Alert => 1
    case Crit => 2
    case Error => 3
    case Warn => 4
    case Notice => 5
    case Info => 6
    case Log => 6
    case Debug => 7
  }

  /** The severities of section 6.2.1 of RFC 5424, listed by numerical code. */
  const SyslogSeverities: seq<string> :=
    ["Emergency", "Alert", "Critical", "Error", "Warning", "Notice", "Informational", "Debug"]

  /** The syslog severity each method stands for; `log` is an informational message. */
  function SyslogName(m: Severity): string
  {
    match m
    case Emerg => "Emergency"
    case Alert => "Alert"
    case Crit => "Critical"
    case Error => "Error"
    case Warn => "Warning"
    case Notice => "Notice"
    case Info => "Informational"
    case Log => "Informational"
    case Debug => "Debug"
  }

  /** Every method's code is the RFC 5424 numerical code of the severity it stands for. */
  lemma CodesFollowSyslog(m: Severity)
    ensures Code(m) < |SyslogSeverities| && SyslogSeverities[Code(m)] == SyslogName(m)
  {
  }

  /** Codes never decrease along the declaration order: methods are listed from most to least severe. */
  lemma {:induction false} CodesOrdered(i: nat, j: nat)
    requires i <= j < |Severities|
    ensures Code(Severities[i]) <= Code(Severities[j])
  {
    if i < j {
      CodesOrdered(i, j - 1);
      assert Code(Severities[j - 1]) <= Code(Severities[j]);
    }
  }

  /** `log` and `info` share a level; every other pair of methods has distinct levels. */
  lemma CodesDistinguish(m: Severity, n: Severity)
    ensures Code(m) == Code(n) <==> m == n || (m in {Info, Log} && n in {Info, Log})
  {
  }

  /** The console transport writes to stderr exactly the methods whose syslog code is at most 3 (error). */
  lemma StderrIffErrorOrWorse(m: Severity)
    ensures ConsoleLogger.Route(m) == Stderr <==> Code(m) <= 3
  {
  }

  /** `msg.level = level; msg.timestamp = now`, on the fields of an object. */
  function Stamped(fields: map<string, Value>, level: nat, now: string): (r: map<string, Value>)
    ensures r.Keys == fields.Keys + {"level", "timestamp"}
    ensures r["level"] == Num(level) && r["timestamp"] == Str(now)
    ensures forall k :: k in fields && k != "level" && k != "timestamp" ==> r[k] == fields[k]
  {
    fields["level" := Num(level)]["timestamp" := Str(now)]
  }

  /** The line a message (not `null`) becomes once `processMessage` has run. */
  function ScriptText(msg: Value): (t: Text)
    reads Footprint(msg)
    ensures msg.Ref? <==> t.Json?
  {
    if msg.Ref? then Json(msg.obj.fields) else Passed(msg)
  }

  /**
   * `processMessage(msg, level)`: an object gets `level` and `timestamp` written into it in place
   * and is serialised; `null` throws on the property write; any other value passes unchanged.
   * `now` stands for `new Date().toJSON()`.
   */
  method ProcessMessage(msg: Value, level: nat, now: string) returns (r: Result<Text, JsError>)
    modifies Footprint(msg)
    ensures msg.Null? ==> r == Err(TypeError)
    ensures msg.Ref? ==> msg.obj.fields == Stamped(old(msg.obj.fields), level, now) && r == Ok(Json(msg.obj.fields))
    ensures !TypeofObject(msg) ==> r == Ok(Passed(msg))
  {
    match msg
    case Null =>
      r := Err(TypeError);
    case Ref(o) =>
      o.fields := o.fields["level" := Num(level)];
      o.fields := o.fields["timestamp" := Str(now)];
      r := Ok(Json(o.fields));
    case _ =>
      r := Ok(Passed(msg));
  }

  /** Method `m` of the script transport, `log(Code(m))(msg)`: one unstyled line on stderr. */
  method Emit(m: Severity, msg: Value, now: string, out: Sink) returns (outcome: Outcome)
    modifies out, Footprint(msg)
    ensures msg.Null? ==> outcome == Fail(TypeError) && out.events == old(out.events)
    ensures !msg.Null? ==> outcome == Pass && out.events == old(out.events) + [Write(Stderr, Unstyled, ScriptText(msg))]
    ensures msg.Ref? ==> msg.obj.fields == Stamped(old(msg.obj.fields), Code(m), now)
  {
    var r := ProcessMessage(msg, Code(m), now);
    match r
    case Err(e) =>
      outcome := Fail(e);
    case Ok(text) =>
      out.Emit(Write(Stderr, Unstyled, text));
      outcome := Pass;
  }
}
