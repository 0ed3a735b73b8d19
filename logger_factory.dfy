/**
 * The logger factory: validates the transport tag and the caller's config, picks a base
 * transport, replaces each severity method by a raw, decorated or decorated-and-echoed version,
 * builds the throttled twins and attaches the type registry and the config.
 */
module LoggerFactory {
  import opened JsValues
  import opened Levels
  import opened Sinks
  import Decorate
  import ConsoleLogger
  import ScriptLogger

  /** The base transports. The graylog transport is opaque here: it receives what it is called with. */
  datatype Transport = Graylog | Console | Script

  /** What a final logger method does when called. */
  datatype Behaviour =
    | Raw(base: Transport)              // the base method itself
    | Decorated(base: Transport)        // decorate(base method, config)
    | DecoratedFanout(base: Transport)  // the decorated method, then the console method with the same argument

  /** `_.throttle(logger[method], wait, {trailing: false})`. */
  datatype Throttled = Throttled(target: Behaviour, wait: int)

  /** Why a factory call aborts before any logger exists. */
  datatype FactoryError =
    | InvalidTransport    // the tag fails `Joi.string()`
    | PrimitiveConfig     // `config.transport = transport` on a truthy non-object throws in strict mode
    | InvalidConfig       // the config fails the schema

  /** The built-in catalog of event types; `UNKNOWN` is the `type` the decorator fills into a record that has none. */
  function CommonTypes(): (t: map<string, Value>)
    ensures t.Keys == {"WORKER_CRASH", "WORKER_START", "QUEUE_STALLED", "SERVICE_CRASH", "SERVICE_START",
                       "QUEUE_ANALYSIS_FAILED", "UNCAUGHT_EXCEPTION", "UNHANDLED_REJECTION", "UNKNOWN"}
    ensures t["UNKNOWN"] == Str(Decorate.Unknown)
    ensures forall k :: k in t ==> t[k].Str? && t[k].s != ""
  {
    map[
      "WORKER_CRASH" := Str("worker-crash"),
      "WORKER_START" := Str("worker-start"),
      "QUEUE_STALLED" := Str("queue-stalled"),
      "SERVICE_CRASH" := Str("service-crash"),
      "SERVICE_START" := Str("service-start"),
      "QUEUE_ANALYSIS_FAILED" := Str("queue-analysis-failed"),
      "UNCAUGHT_EXCEPTION" := Str("uncaught-exception"),
      "UNHANDLED_REJECTION" := Str("unhandled-rejection"),
      "UNKNOWN" := Str("unknown")
    ]
  }

  /**
   * The first character, the last character and the length of an event type. A proof aid only:
   * these three tell the nine built-in values apart, which spares the solver comparing them
   * character by character.
   */
  function Signature(t: Value): (char, char, int)
  {
    if t.Str? && t.s != "" then (t.s[0], t.s[|t.s| - 1], |t.s|) else (' ', ' ', 0)
  }

  /** A proof aid: the built-in key an event type is listed under, recognised by its signature. */
  function KeyOf(t: Value): string
  {
    match Signature(t)
    case ('w', 'h', 12) => "WORKER_CRASH"
    case ('w', 't', 12) => "WORKER_START"
    case ('q', 'd', 13) => "QUEUE_STALLED"
    case ('s', 'h', 13) => "SERVICE_CRASH"
    case ('s', 't', 13) => "SERVICE_START"
    case ('q', 'd', 21) => "QUEUE_ANALYSIS_FAILED"
    case ('u', 'n', 18) => "UNCAUGHT_EXCEPTION"
    case ('u', 'n', 19) => "UNHANDLED_REJECTION"
    case ('u', 'n', 7) => "UNKNOWN"
    case _ => ""
  }

  /** No two built-in keys share a value. */
  lemma CommonTypesDistinct()
    ensures forall k, l :: k in CommonTypes() && l in CommonTypes() && k != l ==> CommonTypes()[k] != CommonTypes()[l]
  {
    var t := CommonTypes();
    forall k | k in t
      ensures KeyOf(t[k]) == k
    {
    }
  }

  // ---------------------------------------------------------------------------------------------
  // Validation

  /** `Joi.string()` accepts a non-empty string, or no value at all when the key is optional. */
  predicate OptionalString(v: Value)
  {
    v.Undef? || (v.Str? && v.s != "")
  }

  predicate OptionalNumber(v: Value)
  {
    v.Undef? || v.Num?
  }

  predicate OptionalBool(v: Value)
  {
    v.Undef? || v.Bool?
  }

  /** `transportSchema`: `.allow` adds values but does not restrict, so any non-empty string passes. */
  predicate ValidTag(tag: Value)
    ensures tag.Str? && Truthy(tag) ==> ValidTag(tag)
    ensures ValidTag(tag) ==> tag.Undef? || (tag.Str? && Truthy(tag))
  {
    OptionalString(tag)
  }

  /** `configSchema` on the caller's config (unknown keys are only stripped from the discarded result). */
  predicate SchemaOk(f: map<string, Value>)
    ensures SchemaOk(f) && Get(f, "throttle_wait") != Undef ==> Get(f, "throttle_wait").Num? && Get(f, "throttle_wait").n >= 10
    ensures SchemaOk(f) && Get(f, "transport") == Str("graylog") ==> Get(f, "graylogHost").Str? && Truthy(Get(f, "graylogHost"))
    ensures SchemaOk(f) ==> Get(f, "debug_mode").Undef? || Get(f, "debug_mode").Bool?
    ensures SchemaOk(f) ==> forall k :: k in {"transport", "service_name", "env", "tenant", "graylogHost"} ==> !Get(f, k).Str? || Truthy(Get(f, k))
  {
    && OptionalString(Get(f, "transport"))
    && (Get(f, "throttle_wait").Undef? || (Get(f, "throttle_wait").Num? && Get(f, "throttle_wait").n >= 10))
    && OptionalBool(Get(f, "debug_mode"))
    && OptionalString(Get(f, "service_name"))
    && OptionalString(Get(f, "env"))
    && OptionalString(Get(f, "tenant"))
    && OptionalString(Get(f, "graylogHost"))
    && (Get(f, "transport") == Str("graylog") ==> !Get(f, "graylogHost").Undef?)
    && OptionalNumber(Get(f, "graylogPort"))
  }

  /** The caller's config object as the factory sees it: its properties, and whether it is an array. */
  datatype ConfigObject = ConfigObject(fields: map<string, Value>, isArray: bool)

  /**
   * `config = config || {}` as far as later property writes are concerned: the object written
   * to, or None for a truthy primitive, on which the write throws.
   */
  function ConfigSource(config: Value): (s: Option<ConfigObject>)
    reads Footprint(config)
    ensures s.None? <==> Truthy(config) && !IsObject(config)
    ensures !Truthy(config) ==> s == Some(ConfigObject(map[], false))
    ensures IsObject(config) ==> s == Some(ConfigObject(config.obj.fields, config.obj.isArray))
  {
    if !Truthy(config) then Some(ConfigObject(map[], false))
    else if config.Ref? then Some(ConfigObject(config.obj.fields, config.obj.isArray))
    else None
  }

  // ---------------------------------------------------------------------------------------------
  // Composition

  /** The `switch (transport)`; `resolvable` is what the DNS lookup of `graylogHost` answers. */
  function SelectTransport(tag: Value, resolvable: bool): (t: Transport)
    ensures t == Graylog <==> tag == Str("graylog") && resolvable
    ensures t == Script <==> tag == Str("script")
    ensures t == Console <==> (tag == Str("graylog") && !resolvable) || (tag != Str("graylog") && tag != Str("script"))
  {
    if tag == Str("graylog") then (if resolvable then Graylog else Console)
    else if tag == Str("script") then Script
    else Console
  }

  /** The tags whose base methods are used undecorated: valid tags that never select graylog. */
  predicate IsRawTag(tag: Value)
    ensures IsRawTag(tag) ==> ValidTag(tag) && tag.Str?
    ensures IsRawTag(tag) ==> SelectTransport(tag, true) != Graylog && SelectTransport(tag, false) != Graylog
    ensures tag == Str("graylog") ==> !IsRawTag(tag)
  {
    tag == Str("console") || tag == Str("script")
  }

  /** What every method of the final logger does, given the base and the two switches. */
  function Wrap(base: Transport, raw: bool, fanout: bool): (b: Behaviour)
    ensures b.base == base
    ensures b.Raw? <==> raw
    ensures b.DecoratedFanout? <==> !raw && fanout
  {
    if raw then Raw(base) else if fanout then DecoratedFanout(base) else Decorated(base)
  }

  /** The severity methods of the final logger. */
  function Composed(base: Transport, raw: bool, fanout: bool): (methods: map<Severity, Behaviour>)
    ensures methods.Keys == AllSeverities
    ensures forall m :: m in methods ==> methods[m] == Wrap(base, raw, fanout)
  {
    map m | m in AllSeverities :: Wrap(base, raw, fanout)
  }

  /** The `throttle` sub-object: one entry per logger method, wrapping that method. */
  function ThrottleTable(methods: map<Severity, Behaviour>, wait: int): (t: map<Severity, Throttled>)
    ensures t.Keys == methods.Keys
    ensures forall m :: m in t ==> t[m].target == methods[m] && t[m].wait == wait
  {
    map m | m in methods :: Throttled(methods[m], wait)
  }

  /** Everything a successful factory call decides, and the caller's config fields afterwards. */
  datatype Plan = Plan(
    base: Transport,
    methods: map<Severity, Behaviour>,
    throttle: map<Severity, Throttled>,
    wait: int,
    config: map<string, Value>)

  /** What a logger built from a plan is guaranteed to look like. */
  predicate WellFormed(p: Plan)
  {
    && p.methods.Keys == AllSeverities
    && (forall m :: m in p.methods ==> p.methods[m].base == p.base)
    && (forall m :: m in p.methods && !p.methods[m].Raw? ==> p.base != Script)
    && p.wait >= 10
    && p.throttle == ThrottleTable(p.methods, p.wait)
  }

  /** The factory as a function of the tag, the caller's config fields and the DNS answer. */
  function PlanFor(tag: Value, source: Option<ConfigObject>, resolvable: bool): (r: Result<Plan, FactoryError>)
    ensures r.Ok? ==> ValidTag(tag) && source.Some? && !source.value.isArray
    ensures r.Ok? ==> WellFormed(r.value) && r.value.base == SelectTransport(tag, resolvable)
  {
    if !ValidTag(tag) then Err(InvalidTransport)
    else if source.None? then Err(PrimitiveConfig)
    else
      var tagged := source.value.fields["transport" := tag];
      // `Joi.object()` rejects an array before looking at any key
      if source.value.isArray || !SchemaOk(tagged) then Err(InvalidConfig)
      else Ok(Assembled(tag, tagged, resolvable))
  }

  /** What the factory builds once the config, with `transport` set to the tag, passed the schema. */
  function Assembled(tag: Value, tagged: map<string, Value>, resolvable: bool): (p: Plan)
    requires SchemaOk(tagged)
    ensures WellFormed(p) && p.base == SelectTransport(tag, resolvable)
    ensures p.config.Keys == tagged.Keys + {"throttle_wait"} && p.config["throttle_wait"] == Num(p.wait)
  {
    var wait := Or(Get(tagged, "throttle_wait"), Num(1000));
    var final := tagged["throttle_wait" := wait];
    var base := SelectTransport(tag, resolvable);
    var methods := Composed(base, IsRawTag(tag), Truthy(Get(final, "debug_mode")));
    Plan(base, methods, ThrottleTable(methods, wait.n), wait.n, final)
  }

  // ---------------------------------------------------------------------------------------------
  // Properties of the factory

  /** Construction aborts exactly on an invalid tag, a primitive config, an array or a schema violation. */
  lemma AbortsBeforeAnyLogger(tag: Value, c: ConfigObject, resolvable: bool)
    ensures !ValidTag(tag) ==> PlanFor(tag, Some(c), resolvable) == Err(InvalidTransport)
    ensures ValidTag(tag) ==> (PlanFor(tag, Some(c), resolvable).Err? <==> c.isArray || !SchemaOk(c.fields["transport" := tag]))
    ensures ValidTag(tag) && c.isArray ==> PlanFor(tag, Some(c), resolvable) == Err(InvalidConfig)
    ensures tag == Str("graylog") && Get(c.fields, "graylogHost").Undef? ==> PlanFor(tag, Some(c), resolvable) == Err(InvalidConfig)
    ensures ValidTag(tag) && Get(c.fields, "throttle_wait").Num? && Get(c.fields, "throttle_wait").n < 10 ==>
              PlanFor(tag, Some(c), resolvable) == Err(InvalidConfig)
    ensures ValidTag(tag) ==> PlanFor(tag, None, resolvable) == Err(PrimitiveConfig)
  {
  }

  /** An unknown tag, or no tag at all, passes validation: the tag is only required to be a string. */
  lemma AnyStringTagAccepted(tag: string, resolvable: bool)
    requires tag != ""
    ensures PlanFor(Str(tag), Some(ConfigObject(map[], false)), resolvable).Ok? <==> tag != "graylog"
    ensures PlanFor(Undef, Some(ConfigObject(map[], false)), resolvable).Ok?
  {
    var f := map[]["transport" := Str(tag)];
    assert Get(f, "graylogHost") == Undef;
  }

  /** `throttle_wait` is at least 10 after construction, and 1000 when the caller left it out. */
  lemma ThrottleWaitDefaulted(tag: Value, c: ConfigObject, resolvable: bool)
    requires PlanFor(tag, Some(c), resolvable).Ok?
    ensures var p := PlanFor(tag, Some(c), resolvable).value;
            && p.wait >= 10
            && p.config["throttle_wait"] == Num(p.wait)
            && (Get(c.fields, "throttle_wait").Undef? ==> p.wait == 1000)
            && (Get(c.fields, "throttle_wait").Num? ==> p.wait == Get(c.fields, "throttle_wait").n)
  {
  }

  /** The four outcomes of transport selection. */
  lemma TransportSelection(tag: Value, c: ConfigObject, resolvable: bool)
    requires PlanFor(tag, Some(c), resolvable).Ok?
    ensures var p := PlanFor(tag, Some(c), resolvable).value;
            && (tag == Str("graylog") && resolvable ==> p.base == Graylog)
            && (tag == Str("graylog") && !resolvable ==> p.base == Console)
            && (tag == Str("script") ==> p.base == Script)
            && (tag != Str("graylog") && tag != Str("script") ==> p.base == Console)
  {
  }

  /** Methods are the base methods unchanged exactly when the tag is 'console' or 'script'. */
  lemma RawExactlyForConsoleAndScript(tag: Value, c: ConfigObject, resolvable: bool, m: Severity)
    requires PlanFor(tag, Some(c), resolvable).Ok?
    ensures var p := PlanFor(tag, Some(c), resolvable).value;
            m in p.methods && (p.methods[m] == Raw(p.base) <==> IsRawTag(tag))
  {
    AllSeveritiesComplete(m);
  }

  /**
   * A decorated method also echoes to the console exactly when the caller's own config has a
   * truthy `debug_mode`; the schema default is never applied, so leaving it out means no echo.
   */
  lemma FanoutOnlyWhenCallerSetDebug(tag: Value, c: ConfigObject, resolvable: bool, m: Severity)
    requires PlanFor(tag, Some(c), resolvable).Ok?
    requires !IsRawTag(tag)
    ensures var p := PlanFor(tag, Some(c), resolvable).value;
            && m in p.methods
            && (p.methods[m] == DecoratedFanout(p.base) <==> Truthy(Get(c.fields, "debug_mode")))
            && (p.methods[m] == Decorated(p.base) <==> !Truthy(Get(c.fields, "debug_mode")))
            && (Get(c.fields, "debug_mode").Undef? ==> p.methods[m] == Decorated(p.base))
  {
    AllSeveritiesComplete(m);
    var tagged := c.fields["transport" := tag];
    var final := tagged["throttle_wait" := Or(Get(tagged, "throttle_wait"), Num(1000))];
    assert Get(final, "debug_mode") == Get(c.fields, "debug_mode");
  }

  /** An unresolvable graylog host falls back to a console base whose methods are still decorated. */
  lemma GraylogFallbackIsDecoratedConsole(c: ConfigObject, m: Severity)
    requires PlanFor(Str("graylog"), Some(c), false).Ok?
    ensures var p := PlanFor(Str("graylog"), Some(c), false).value;
            p.base == Console && m in p.methods && !p.methods[m].Raw?
  {
    AllSeveritiesComplete(m);
  }

  /** The throttle table has exactly the logger's method names, each wrapping the final method. */
  lemma ThrottleMirrorsLogger(tag: Value, c: ConfigObject, resolvable: bool)
    requires PlanFor(tag, Some(c), resolvable).Ok?
    ensures var p := PlanFor(tag, Some(c), resolvable).value;
            && p.throttle.Keys == p.methods.Keys == AllSeverities
            && forall m :: m in p.throttle ==> p.throttle[m] == Throttled(p.methods[m], p.wait)
  {
  }

  /**
   * The config a logger keeps is the caller's, with `transport` set to the tag and
   * `throttle_wait` defaulted; every other key, known or not, is as the caller left it.
   */
  lemma ConfigIsCallersWithTag(tag: Value, c: ConfigObject, resolvable: bool)
    requires PlanFor(tag, Some(c), resolvable).Ok?
    ensures var p := PlanFor(tag, Some(c), resolvable).value;
            && p.config["transport"] == tag
            && p.config.Keys == c.fields.Keys + {"transport", "throttle_wait"}
            && forall k :: k in c.fields && k != "transport" && k != "throttle_wait" ==> p.config[k] == c.fields[k]
  {
  }

  // ---------------------------------------------------------------------------------------------
  // The imperative construction

  /**
   * `_.cloneDeep(baseLogger)` followed, unless the transport is raw, by the `for…in` loop that
   * replaces each method by its decorated (and, in debug mode, echoing) version.
   */
  method ComposeMethods(base: Transport, raw: bool, fanout: bool) returns (logger: map<Severity, Behaviour>)
    ensures logger == Composed(base, raw, fanout)
  {
    logger := map m | m in AllSeverities :: Raw(base);
    if !raw {
      var i := 0;
      while i < |Severities|
        invariant 0 <= i <= |Severities|
        invariant logger.Keys == AllSeverities
        invariant forall j :: 0 <= j < i ==> logger[Severities[j]] == Wrap(base, false, fanout)
      {
        var m := Severities[i];
        if fanout {
          logger := logger[m := DecoratedFanout(base)];
        } else {
          logger := logger[m := Decorated(base)];
        }
        i := i + 1;
      }
      forall m | m in logger
        ensures logger[m] == Wrap(base, raw, fanout)
      {
        assert Severities[Index(m)] == m;
      }
    }
  }

  /** The `for…in` loop that fills `throttledLogger`, one entry per method of the base transport. */
  method ThrottleMethods(logger: map<Severity, Behaviour>, wait: int) returns (throttled: map<Severity, Throttled>)
    requires logger.Keys == AllSeverities
    ensures throttled == ThrottleTable(logger, wait)
  {
    throttled := map[];
    var i := 0;
    while i < |Severities|
      invariant 0 <= i <= |Severities|
      invariant throttled.Keys == set j | 0 <= j < i :: Severities[j]
      invariant forall m :: m in throttled ==> throttled[m] == Throttled(logger[m], wait)
    {
      var m := Severities[i];
      throttled := throttled[m := Throttled(logger[m], wait)];
      i := i + 1;
    }
    SeveritiesEnumerateAll();
  }

  /** The object `loggerFactory` returns. */
  class Logger {
    const base: Transport
    const methods: map<Severity, Behaviour>
    const throttle: map<Severity, Throttled>
    const commonTypes: map<string, Value>
    var types: map<string, Value>
    /** `logger.config`: the caller's own config object. */
    const config: JsObject

    ghost predicate Valid()
      reads this
    {
      && methods.Keys == AllSeverities
      && (forall m :: m in methods ==> methods[m].base == base)
      && (forall m :: m in methods && !methods[m].Raw? ==> base != Script)
      && throttle.Keys == methods.Keys
      && (forall m :: m in throttle ==> throttle[m].target == methods[m] && throttle[m].wait >= 10)
      && commonTypes == CommonTypes()
      && commonTypes.Keys <= types.Keys
    }

    /** Attaches the methods, the throttle table, `types`, `commonTypes` and `config`. */
    constructor (plan: Plan, config: JsObject)
      requires WellFormed(plan)
      ensures Valid()
      ensures base == plan.base && methods == plan.methods && throttle == plan.throttle
      ensures types == CommonTypes() && this.config == config
    {
      base := plan.base;
      methods := plan.methods;
      throttle := plan.throttle;
      types := CommonTypes();
      commonTypes := CommonTypes();
      this.config := config;
    }

    /** `extendTypes(extra)`: `_.assign` into `types`; on a shared key the new value wins. */
    method ExtendTypes(extra: map<string, Value>)
      requires Valid()
      modifies this`types
      ensures Valid()
      ensures types.Keys == old(types).Keys + extra.Keys
      ensures forall k :: k in extra ==> types[k] == extra[k]
      ensures forall k :: k in old(types) && k !in extra ==> types[k] == old(types)[k]
      ensures commonTypes == CommonTypes()
    {
      types := types + extra;
    }

    /** `listTypes()`: the current registry, which always holds every built-in key. */
    function ListTypes(): (r: map<string, Value>)
      reads this
      requires Valid()
      ensures CommonTypes().Keys <= r.Keys
      ensures r == types
    {
      types
    }

    /**
     * Calls `logger[m](arg, ...more)`. A raw method is the base method itself; a decorated
     * method normalises `arg` (in place for an object) and passes only the record to the base
     * method; the echoing version then calls the console method with the same `arg`.
     * `delivered` is what the base method received; `now` stands for the wall clock.
     */
    method Call(m: Severity, arg: Value, more: seq<Value>, processEnv: map<string, string>, now: string, out: Sink)
      returns (outcome: Outcome, delivered: Value)
      requires Valid()
      modifies out, Footprint(arg)
      ensures m in methods
      ensures methods[m].Raw? ==> delivered == arg
      ensures methods[m].Raw? && base != Script ==>
                outcome == Pass && unchanged(Footprint(arg)) && out.events == old(out.events) + [BaseEvent(base, m, arg, more)]
      ensures methods[m].Raw? && base == Script && arg.Null? ==>
                outcome == Fail(TypeError) && out.events == old(out.events)
      ensures methods[m].Raw? && base == Script && !arg.Null? ==>
                outcome == Pass && out.events == old(out.events) + [Write(Stderr, Unstyled, ScriptLogger.ScriptText(arg))]
      ensures methods[m].Raw? && base == Script && arg.Ref? ==>
                arg.obj.fields == ScriptLogger.Stamped(old(arg.obj.fields), ScriptLogger.Code(m), now)
      ensures !methods[m].Raw? ==> outcome == Pass && delivered.Ref?
      ensures !methods[m].Raw? && IsObject(arg) ==> delivered == arg
      ensures !methods[m].Raw? ==>
                delivered.obj.fields == Decorate.Normalised(old(Decorate.Initial(arg)), old(config.fields), processEnv)
      ensures !methods[m].Raw? && !IsObject(arg) ==>
                fresh(delivered.obj) && "message" in delivered.obj.fields && delivered.obj.fields["message"] == arg
      ensures methods[m].Decorated? ==> out.events == old(out.events) + [RecordEvent(base, m, delivered.obj.fields)]
      ensures methods[m].DecoratedFanout? ==>
                out.events == old(out.events) +
                [RecordEvent(base, m, delivered.obj.fields), ConsoleLogger.Line(m, EchoBody(arg, delivered.obj.fields), [])]
    {
      AllSeveritiesComplete(m);
      if methods[m].Raw? {
        delivered := arg;
        outcome := EmitBase(base, m, arg, more, now, out);
      } else {
        delivered := CallDecorated(base, m, arg, config, processEnv, out, methods[m].DecoratedFanout?);
        outcome := Pass;
      }
    }
  }

  /** The event a call of method `m` of a non-script base transport produces. */
  function BaseEvent(t: Transport, m: Severity, msg: Value, more: seq<Value>): (e: Event)
    requires t != Script
    reads Footprint(msg)
    ensures e.Ship? <==> t.Graylog?
    ensures t.Graylog? ==> e.severity == m && e.payload == Snapshot(msg)
    ensures t.Console? ==> e.Write? && e.stream == ConsoleLogger.Route(m) && e.text.Prefixed? && e.text.body == ConsoleLogger.MessageBody(msg)
    ensures t.Console? ==> e == ConsoleLogger.ConsoleEvent(m, msg, more)
  {
    if t == Console then ConsoleLogger.ConsoleEvent(m, msg, more) else Ship(m, Snapshot(msg))
  }

  /** The write a base method (console or graylog) performs for a decorated record. */
  function RecordEvent(t: Transport, m: Severity, fields: map<string, Value>): (e: Event)
    requires t != Script
    ensures e.Ship? <==> t.Graylog?
    ensures t.Graylog? ==> e.severity == m && e.payload == Record(fields)
    ensures t.Console? ==> e.Write? && e.stream == ConsoleLogger.Route(m) && e.text == Prefixed(" ", Inspected(fields))
    ensures t.Console? ==> e.style == ConsoleLogger.Colour(m) && e == ConsoleLogger.Line(m, Inspected(fields), [])
  {
    if t == Console then ConsoleLogger.Line(m, Inspected(fields), []) else Ship(m, Record(fields))
  }

  /** What the echo to the console shows: the decorated object itself, or the primitive as the caller passed it. */
  function EchoBody(arg: Value, fields: map<string, Value>): (b: Body)
    ensures b.Inspected? <==> IsObject(arg)
    ensures IsObject(arg) ==> b.fields == fields
    ensures !IsObject(arg) ==> b.Plain? && (arg.Str? ==> b.text == arg.s)
    ensures !IsObject(arg) ==> b == ConsoleLogger.MessageBody(arg)
  {
    if IsObject(arg) then Inspected(fields) else ConsoleLogger.PlainBody(arg)
  }

  /**
   * The replacement method built by the decoration loop: `decorate(base method, config)(arg)`,
   * followed when `fanout` holds by the console method of the same name with the same `arg`.
   */
  method CallDecorated(base: Transport, m: Severity, arg: Value, config: JsObject, processEnv: map<string, string>,
                       out: Sink, fanout: bool) returns (delivered: Value)
    requires base != Script
    modifies out, Footprint(arg)
    ensures delivered.Ref?
    ensures IsObject(arg) ==> delivered == arg
    ensures !IsObject(arg) ==> fresh(delivered.obj)
    ensures delivered.obj.fields == Decorate.Normalised(old(Decorate.Initial(arg)), old(config.fields), processEnv)
    ensures !IsObject(arg) ==> "message" in delivered.obj.fields && delivered.obj.fields["message"] == arg
    ensures !fanout ==> out.events == old(out.events) + [RecordEvent(base, m, delivered.obj.fields)]
    ensures fanout ==>
              out.events == old(out.events) +
              [RecordEvent(base, m, delivered.obj.fields), ConsoleLogger.Line(m, EchoBody(arg, delivered.obj.fields), [])]
  {
    var record := Decorate.Normalise(arg, Ref(config), processEnv);
    delivered := Ref(record);
    EmitDecorated(base, m, record.fields, EchoBody(arg, record.fields), out, fanout);
  }

  /** The writes of a decorated call: the record to the base method, then the echo if enabled. */
  method EmitDecorated(base: Transport, m: Severity, fields: map<string, Value>, echo: Body, out: Sink, fanout: bool)
    requires base != Script
    modifies out
    ensures !fanout ==> out.events == old(out.events) + [RecordEvent(base, m, fields)]
    ensures fanout ==> out.events == old(out.events) + [RecordEvent(base, m, fields), ConsoleLogger.Line(m, echo, [])]
  {
    out.Emit(RecordEvent(base, m, fields));
    if fanout {
      out.Emit(ConsoleLogger.Line(m, echo, []));
    }
  }

  /** Calls method `m` of base transport `t`. */
  method EmitBase(t: Transport, m: Severity, msg: Value, more: seq<Value>, now: string, out: Sink) returns (outcome: Outcome)
    modifies out, Footprint(msg)
    ensures t != Script ==> outcome == Pass && unchanged(Footprint(msg)) && out.events == old(out.events) + [BaseEvent(t, m, msg, more)]
    ensures t == Script && msg.Null? ==> outcome == Fail(TypeError) && out.events == old(out.events)
    ensures t == Script && !msg.Null? ==> outcome == Pass && out.events == old(out.events) + [Write(Stderr, Unstyled, ScriptLogger.ScriptText(msg))]
    ensures t == Script && msg.Ref? ==> msg.obj.fields == ScriptLogger.Stamped(old(msg.obj.fields), ScriptLogger.Code(m), now)
  {
    match t
    case Script =>
      outcome := ScriptLogger.Emit(m, msg, now, out);
    case _ =>
      out.Emit(BaseEvent(t, m, msg, more));
      outcome := Pass;
  }

  /**
   * `loggerFactory(transport, config)`. `resolvable` is the answer of the DNS lookup of
   * `config.graylogHost`. The caller's config object is written to (its `transport`, and
   * `throttle_wait` once validation passed) and becomes `logger.config`.
   */
  method CreateLogger(tag: Value, config: Value, resolvable: bool) returns (r: Result<Logger, FactoryError>)
    modifies Footprint(config)
    ensures var plan := PlanFor(tag, old(ConfigSource(config)), resolvable);
            && (plan.Err? ==> r == Err(plan.error))
            && (plan.Ok? ==>
                  && r.Ok? && fresh(r.value) && r.value.Valid()
                  && r.value.base == plan.value.base
                  && r.value.methods == plan.value.methods
                  && r.value.throttle == plan.value.throttle
                  && r.value.types == CommonTypes()
                  && r.value.config.fields == plan.value.config)
    ensures r.Ok? && config.Ref? ==> r.value.config == config.obj
    ensures r.Ok? && !config.Ref? ==> fresh(r.value.config) && !r.value.config.isArray
    ensures r == Err(InvalidConfig) && config.Ref? ==> config.obj.fields == old(config.obj.fields)["transport" := tag]
    ensures r == Err(InvalidTransport) || r == Err(PrimitiveConfig) ==> unchanged(Footprint(config))
  {
    if !ValidTag(tag) {
      return Err(InvalidTransport);
    }
    var obj: JsObject;
    if !Truthy(config) {
      obj := new JsObject(map[]);
    } else if config.Ref? {
      obj := config.obj;
    } else {
      return Err(PrimitiveConfig);
    }
    obj.fields := obj.fields["transport" := tag];
    if obj.isArray || !SchemaOk(obj.fields) {
      return Err(InvalidConfig);
    }
    ghost var tagged := obj.fields;
    var logger := Assemble(tag, obj, resolvable);
    assert PlanFor(tag, old(ConfigSource(config)), resolvable) == Ok(Assembled(tag, tagged, resolvable));
    r := Ok(logger);
  }

  /**
   * The part of `loggerFactory` after validation: defaults `throttle_wait` in the caller's
   * object, selects the base, runs the decoration and throttle loops and attaches the rest.
   */
  method Assemble(tag: Value, obj: JsObject, resolvable: bool) returns (logger: Logger)
    requires SchemaOk(obj.fields)
    modifies obj
    ensures var plan := Assembled(tag, old(obj.fields), resolvable);
            && fresh(logger) && logger.Valid()
            && logger.base == plan.base
            && logger.methods == plan.methods
            && logger.throttle == plan.throttle
            && logger.types == CommonTypes()
            && logger.config == obj
            && obj.fields == plan.config
  {
    ghost var tagged := obj.fields;
    obj.fields := obj.fields["throttle_wait" := Or(Get(obj.fields, "throttle_wait"), Num(1000))];
    var base := SelectTransport(tag, resolvable);
    var methods := ComposeMethods(base, IsRawTag(tag), Truthy(Get(obj.fields, "debug_mode")));
    var wait := Get(obj.fields, "throttle_wait").n;
    var throttle := ThrottleMethods(methods, wait);
    var plan := Plan(base, methods, throttle, wait, obj.fields);
    assert plan == Assembled(tag, tagged, resolvable);
    assert WellFormed(plan);
    logger := new Logger(plan, obj);
  }
}
