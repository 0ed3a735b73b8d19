/**
 * The console transport: nine methods that prefix the message with an optional level and
 * timestamp and write it to stderr (the four most severe) or stdout (the rest).
 */
module ConsoleLogger {
  import opened JsValues
  import opened Levels
  import opened Sinks

  /** `console.error` for emerg, alert, crit and error; `console.log` for the others. */
  function Route(m: Severity): (s: Stream)
    ensures s == Stderr <==> m in {Emerg, Alert, Crit, Error}
  {
    match m
    case Emerg => Stderr
    case Alert => Stderr
    case Crit => Stderr
    case Error => Stderr
    case Warn => Stdout
    case Notice => Stdout
    case Info => Stdout
    case Log => Stdout
    case Debug => Stdout
  }

  /** The `colors` style each method wraps its line in; only `info` and `log` share one. */
  function Colour(m: Severity): (c: Style)
    ensures Route(m) == Stderr <==> c in {MagentaBold, Magenta, RedBold, Red}
    ensures Route(m) == Stdout <==> c in {Yellow, GreenBold, Green, Gray}
    ensures c == Green <==> m in {Info, Log}
    ensures (c == MagentaBold <==> m == Emerg) && (c == Magenta <==> m == Alert)
    ensures (c == RedBold <==> m == Crit) && (c == Red <==> m == Error)
    ensures (c == Yellow <==> m == Warn) && (c == GreenBold <==> m == Notice) && (c == Gray <==> m == Debug)
    ensures c != Unstyled
  {
    match m
    case Emerg => MagentaBold
    case Alert => Magenta
    case Crit => RedBold
    case Error => Red
    case Warn => Yellow
    case Notice => GreenBold
    case Info => Green
    case Log => Green
    case Debug => Gray
  }

  /** A message that is not an object as it is concatenated; `inspect(null)` is "null". */
  function PlainBody(msg: Value): (b: Body)
    requires !msg.Ref?
    ensures msg.Null? ==> b == Plain("null")
    ensures !msg.Null? ==> b == Plain(ToString(msg))
    ensures msg.Str? ==> b.text == msg.s
  {
    if msg.Null? then Plain("null") else Plain(ToString(msg))
  }

  /** The message after `typeof msg == 'object' ? inspect(msg) : msg`. */
  function MessageBody(msg: Value): (b: Body)
    reads Footprint(msg)
    ensures b.Inspected? <==> msg.Ref?
    ensures msg.Ref? ==> b == Inspected(msg.obj.fields)
    ensures !msg.Ref? ==> b == PlainBody(msg)
  {
    if msg.Ref? then Inspected(msg.obj.fields) else PlainBody(msg)
  }

  /** The prefix: the level and a space when the level is truthy, a space, then the timestamp and a space when it is truthy. */
  function Prefix(level: Value, timestamp: Value): (p: string)
    ensures Truthy(level) ==> ToString(level) + " " <= p
    ensures !Truthy(level) ==> " " <= p
    ensures !Truthy(level) && !Truthy(timestamp) ==> p == " "
    ensures Truthy(level) && !Truthy(timestamp) ==> p == ToString(level) + "  "
  {
    (if Truthy(level) then ToString(level) + " " else "") + " " + (if Truthy(timestamp) then ToString(timestamp) + " " else "")
  }

  /** The line `processMessage` returns once the message is in its printable form. */
  function Format(body: Body, level: Value, timestamp: Value): (t: Text)
    ensures t.Prefixed? && t.body == body
    ensures t.prefix == Prefix(level, timestamp)
    ensures |t.prefix| > 0 && t.prefix[|t.prefix| - 1] == ' '
  {
    Prefixed(Prefix(level, timestamp), body)
  }

  /** `processMessage(msg, level, timestamp)`. */
  function ProcessMessage(msg: Value, level: Value, timestamp: Value): (t: Text)
    reads Footprint(msg)
    ensures t == Prefixed(Prefix(level, timestamp), MessageBody(msg))
  {
    Format(MessageBody(msg), level, timestamp)
  }

  /** The string a prefixed line with a plain message prints. */
  function Rendered(t: Text): string
    requires t.Prefixed? && t.body.Plain?
  {
    t.prefix + t.body.text
  }

  /** The `i`-th argument beyond the message, `undefined` when the caller did not pass it. */
  function Extra(more: seq<Value>, i: nat): Value
  {
    if i < |more| then more[i] else Undef
  }

  /**
   * The write method `m` of the console transport performs for a message in printable form
   * and the extra arguments `more`. Only `log` declares the `level` and `timestamp`
   * parameters; the other methods drop extra arguments.
   */
  function Line(m: Severity, body: Body, more: seq<Value>): (e: Event)
    ensures e.Write? && e.stream == Route(m) && e.style == Colour(m)
    ensures e.text.Prefixed? && e.text.body == body
    ensures m != Log ==> e.text.prefix == " "
  {
    var level := if m == Log then Extra(more, 0) else Null;
    var timestamp := if m == Log then Extra(more, 1) else Null;
    Write(Route(m), Colour(m), Format(body, level, timestamp))
  }

  /** The write of the call `m(msg, ...more)` on the console transport. */
  function ConsoleEvent(m: Severity, msg: Value, more: seq<Value>): (e: Event)
    reads Footprint(msg)
    ensures e.Write? && e.stream == Route(m) && e.style == Colour(m)
    ensures e.text.Prefixed? && e.text.body == MessageBody(msg)
    ensures m != Log ==> e.text.prefix == " "
    ensures m == Log ==> e.text == ProcessMessage(msg, Extra(more, 0), Extra(more, 1))
  {
    Line(m, MessageBody(msg), more)
  }

  /** `s` occurs in `t` starting at position `i`. */
  predicate OccursAt(t: string, s: string, i: nat)
  {
    i + |s| <= |t| && t[i..i + |s|] == s
  }

  /** `s` occurs in `t` at some position. */
  ghost predicate Contains(t: string, s: string)
  {
    exists i: nat :: OccursAt(t, s, i)
  }

  /** With neither a level nor a timestamp the line is a single space followed by the message. */
  lemma BareLine(msg: string, level: Value, timestamp: Value)
    requires !Truthy(level) && !Truthy(timestamp)
    ensures Rendered(ProcessMessage(Str(msg), level, timestamp)) == " " + msg
  {
  }

  /** A falsy level (such as 0) is left out of the prefix, exactly as if none were given. */
  lemma FalsyLevelOmitted(msg: Value, level: Value, timestamp: Value)
    requires !Truthy(level)
    ensures ProcessMessage(msg, level, timestamp) == ProcessMessage(msg, Null, timestamp)
    ensures Truthy(timestamp) ==> ProcessMessage(msg, level, timestamp).prefix == " " + ToString(timestamp) + " "
  {
  }

  /** With both a level and a timestamp the prefix holds both, in that order, separated by two spaces. */
  lemma FullPrefix(level: Value, timestamp: Value)
    requires Truthy(level) && Truthy(timestamp)
    ensures Prefix(level, timestamp) == ToString(level) + "  " + ToString(timestamp) + " "
  {
  }

  /** `s` occurs in `a + s` right after `a`. */
  lemma OccursAfter(a: string, s: string)
    ensures OccursAt(a + s, s, |a|)
  {
    assert (a + s)[|a|..|a| + |s|] == s;
  }

  /** `s` occurs in `a + s + b + c` right after `a`. */
  lemma OccursBetween(a: string, s: string, b: string, c: string)
    ensures OccursAt(a + s + b + c, s, |a|)
  {
    assert (a + s + b + c)[|a|..|a| + |s|] == s;
  }

  /** With a timestamp, the prefix is the optional level part, a space, the timestamp and a space. */
  lemma TimestampPrefix(level: Value, timestamp: string)
    requires timestamp != ""
    ensures Prefix(level, Str(timestamp)) == (if Truthy(level) then ToString(level) + " " else "") + " " + timestamp + " "
  {
  }

  /** `log(msg, level, timestamp)` with a string message and a timestamp prints a line containing both. */
  lemma {:induction false} LogShowsMessageAndTimestamp(msg: string, level: Value, timestamp: string)
    requires timestamp != ""
    ensures var e := ConsoleEvent(Log, Str(msg), [level, Str(timestamp)]);
            e.text.body.Plain? && Contains(Rendered(e.text), msg) && Contains(Rendered(e.text), timestamp)
  {
    var lead := if Truthy(level) then ToString(level) + " " else "";
    TimestampPrefix(level, timestamp);
    var e := ConsoleEvent(Log, Str(msg), [level, Str(timestamp)]);
    assert e.text == Prefixed(lead + " " + timestamp + " ", Plain(msg));
    assert Rendered(e.text) == lead + " " + timestamp + " " + msg;
    OccursAfter(lead + " " + timestamp + " ", msg);
    OccursBetween(lead + " ", timestamp, " ", msg);
  }

  /** Every method other than `log` ignores extra arguments and prints the bare prefix. */
  lemma OnlyLogTakesExtras(m: Severity, msg: Value, more: seq<Value>)
    requires m != Log
    ensures ConsoleEvent(m, msg, more) == ConsoleEvent(m, msg, [])
    ensures ConsoleEvent(m, msg, more).text == Prefixed(" ", MessageBody(msg))
  {
  }
}
