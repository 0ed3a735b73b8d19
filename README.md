# ts-lib-logger, modelled in Dafny

This project models the core of a small Node.js logging façade. The factory
`loggerFactory(transport, config)` (index.js) does these steps in order:

- validates the transport tag and the caller's config;
- picks a base transport: console, script, or graylog. Graylog is used only when its host resolves;
- replaces each of the nine severity methods (emerg, alert, crit, error, warn, notice, info, log, debug)
  with one of three things: the raw base method, a decorated method, or a decorated method that also
  echoes to the console;
- builds a `throttle` table with the same keys;
- attaches a mutable event-type registry and the caller's config.

The decorator (util/decorate.js) turns any argument into a record. It fills `env`, `service_name` and
`type`, each from a fallback chain. The two local transports are also modelled:

- the console transport (lib/console-logger.js) builds a prefix, then routes the line to stdout or stderr;
- the script transport (lib/script-logger.js) stamps a syslog severity and a timestamp into object
  messages and writes JSON to stderr.

Modules, one per source file plus shared ones:

- `JsValues`: JavaScript values. Objects are references to a `JsObject` class, so in-place writes
  and aliasing are modelled. Also truthiness, `||`, `_.isObject`, `typeof … == 'object'`, and
  template-literal rendering.
- `Levels`: the nine severity methods, in declaration (`for…in`) order.
- `Sinks`: the observable output. This is an ordered list of writes to stdout/stderr plus records
  shipped to graylog, kept in a `Sink` object.
- `Decorate`: util/decorate.js. `Normalised` is the specification. `Normalise` fills the caller's object
  in place, and `Invoke` is the stand-alone wrapper `decorate(fn, config)` for a side-effect-free `fn`.
- `ConsoleLogger`: lib/console-logger.js. Pure functions.
- `ScriptLogger`: lib/script-logger.js. A pure severity table, plus `ProcessMessage`, which mutates the
  message object.
- `LoggerFactory`: index.js.
  - `PlanFor` is the factory as a function.
  - `CreateLogger`/`Assemble` are the imperative factory. They mutate the caller's config.
    `ComposeMethods`/`ThrottleMethods` are its two `for…in` loops.
  - `Logger` is the returned object, with its `types` registry and `Call`, the behaviour of a logger
    method.

Inputs that the source takes from the environment are parameters in the model:

- the DNS answer for `graylogHost` is the `resolvable` flag;
- `process.env` is an explicit `map<string, string>`;
- `new Date().toJSON()` is the `now` string.

Behaviours of the code worth knowing, where it does something other than its own comments and
declarations suggest. The model follows the code:

- **Unknown tags.** The JSDoc at index.js:46 names only 'graylog' and 'console', and
  `transportOptions` (index.js:14) lists those two. An unknown tag such as `'bogus'` is still not
  rejected: `.allow([...])` only adds allowed values to `Joi.string()`. Any non-empty string, or no
  tag at all, passes, and the base is the console (`AnyStringTagAccepted`, `TransportSelection`).
- **`debug_mode` default.** The schema declares a default of `true` (index.js:29), but it never
  takes effect. `Joi.attempt`'s defaulted result is discarded (index.js:55), so the console echo
  happens only when the caller set a truthy `debug_mode` (`FanoutOnlyWhenCallerSetDebug`).
- **Graylog fallback.** The comment at index.js:85-86 says methods are decorated "if base logger
  is NOT console", but the test at index.js:87 looks at the tag, not at the selected transport.
  When the graylog host does not resolve, the fallback console transport is therefore still
  decorated, and the logger differs from the plain console logger (`GraylogFallbackIsDecoratedConsole`).
- **What the echo shows.** The console echo at index.js:96 receives the caller's argument. For an
  object this is the same object the decorator has just filled in place, so the echo shows the
  decorated fields. Only a primitive argument is echoed as the caller passed it (`EchoBody` in `Logger.Call`).
- **Unknown config keys.** `stripUnknown: true` (index.js:39) applies only to Joi's discarded
  result. `logger.config` is the caller's own object, unknown keys included, with `transport` and
  `throttle_wait` written into it (`ConfigIsCallersWithTag`).
- **Array configs.** `Joi.object()` rejects an array, so the factory throws at index.js:55. By then
  index.js:54 has already written `transport` into the caller's array (`AbortsBeforeAnyLogger`, `CreateLogger`).

## Model

| member | source | states |
|---|---|---|
| Levels.SeveritiesEnumerateAll | lib/console-logger.js:7-37 | the transport object declares exactly the nine methods, each once, in emerg…debug order |
| Decorate.EnvVar | util/decorate.js:31-35 | `process.env.NAME` is the variable's string when it is set and `undefined` otherwise; it is truthy exactly when set and non-empty |
| Decorate.ConfigFields | util/decorate.js:17 | an object config is read as it is; on `{}` or any primitive every property the decorator reads is `undefined` |
| Decorate.Fallback | util/decorate.js:30-36 | the value is the configured one if it is truthy, else the environment variable if it is non-empty, else "unknown"; it is always truthy |
| Decorate.Initial | util/decorate.js:22-27 | a non-object argument becomes `{message: arg}`; an object (including an Error) is taken as it is |
| Decorate.Fill | util/decorate.js:30-41 | a field is written only when its current value is falsy, and no other key changes |
| Decorate.Normalised | util/decorate.js:19-41 | after decoration `env`, `service_name` and `type` are present and truthy; a truthy caller value is kept; a falsy one is replaced from the fallback chain (`type` by "unknown"); every other key, `message` included, is unchanged |
| Decorate.NormalisedIdempotent | util/decorate.js:30-41 | decorating an already decorated record changes nothing, under any config or environment |
| Decorate.Normalise | util/decorate.js:19-42 | an object argument is filled in place and is itself the record; any other argument is wrapped in a fresh record whose `message` is the argument; the record equals `Normalised` of the argument, read before the call |
| Decorate.Invoke | util/decorate.js:16-45 | the wrapper calls `fn` with the normalised record and returns `fn`'s result |
| ConsoleLogger.Route | lib/console-logger.js:8-34 | emerg, alert, crit and error call `console.error` (stderr); the other five methods call `console.log` (stdout) |
| ConsoleLogger.Colour | lib/console-logger.js:8-34 | stderr methods are magenta or red, stdout methods yellow, green or gray; only `info` and `log` share a colour (green); every line is styled |
| ConsoleLogger.PlainBody | lib/console-logger.js:41-47 | `null` is shown as "null"; any other non-object message is its `String()` text, and a string is itself |
| ConsoleLogger.MessageBody | lib/console-logger.js:41-47 | exactly object messages are rendered by `inspect`, over their fields; any other message is concatenated as its `String()` text (`null` as "null") |
| ConsoleLogger.Prefix | lib/console-logger.js:45 | a truthy level and a space open the prefix; without one the prefix opens with the separating space; with neither a level nor a timestamp the prefix is that one space; with a level and no timestamp it is the level and two spaces |
| ConsoleLogger.TimestampPrefix | lib/console-logger.js:45 | with a non-empty timestamp the prefix is the level part (if any), a space, the timestamp and a space |
| ConsoleLogger.Format | lib/console-logger.js:45-47 | the line is `Prefix(level, timestamp)` (whose four cases `Prefix` and `TimestampPrefix` state) followed by the message, and the prefix always ends in a space |
| ConsoleLogger.ProcessMessage | lib/console-logger.js:40-47 | the line is exactly `Prefix(level, timestamp)` followed by the message's printable form `MessageBody(msg)` |
| ConsoleLogger.Line | lib/console-logger.js:8-34 | each method writes to its own stream in its own colour; every method except `log` uses the bare prefix " " |
| ConsoleLogger.ConsoleEvent | lib/console-logger.js:8-34 | the same, for a message value; `log` passes its second and third arguments as level and timestamp |
| ConsoleLogger.BareLine | lib/console-logger.js:40-47 | with neither a level nor a timestamp, the line is " " followed by the message |
| ConsoleLogger.FalsyLevelOmitted | lib/console-logger.js:45 | a falsy level such as 0 is left out of the prefix, exactly as if none were given |
| ConsoleLogger.FullPrefix | lib/console-logger.js:45 | with both present, the prefix is the level, two spaces, the timestamp and a space |
| ConsoleLogger.LogShowsMessageAndTimestamp | lib/console-logger.js:29-31 | `log(msg, level, ts)` prints a line that contains both `msg` and `ts` |
| ConsoleLogger.OnlyLogTakesExtras | lib/console-logger.js:8-34 | methods other than `log` ignore extra arguments |
| ScriptLogger.Code | lib/script-logger.js:24-34 | every level is a syslog code from 0 to 7 |
| ScriptLogger.CodesFollowSyslog | lib/script-logger.js:24-34 | each method's level is the numerical code of its severity in section 6.2.1 of RFC 5424 (`log` is informational) |
| ScriptLogger.CodesOrdered | lib/script-logger.js:24-34 | levels never decrease along the declaration order, so methods run from most to least severe |
| ScriptLogger.CodesDistinguish | lib/script-logger.js:24-34 | two methods share a level exactly when they are `info` and `log` |
| ScriptLogger.StderrIffErrorOrWorse | lib/console-logger.js:8-34 | the console writes to stderr exactly the methods whose syslog code is 3 (error) or lower |
| ScriptLogger.Stamped | lib/script-logger.js:11-12 | stamping sets `level` and `timestamp`, overwriting earlier values, and keeps every other field |
| ScriptLogger.ScriptText | lib/script-logger.js:10-15 | exactly object messages are serialised as JSON |
| ScriptLogger.ProcessMessage | lib/script-logger.js:9-16 | `null` throws a TypeError; an object is stamped in place and serialised with the stamps; any other message passes through unchanged |
| ScriptLogger.Emit | lib/script-logger.js:18-22 | each call that does not throw writes exactly one unstyled line to stderr; the caller's object keeps the stamps |
| LoggerFactory.CommonTypes | index.js:15-25 | the built-in catalog has exactly the nine keys WORKER_CRASH … UNKNOWN, each mapped to a non-empty string; `UNKNOWN` maps to the 'unknown' type the decorator fills in |
| LoggerFactory.CommonTypesDistinct | index.js:15-25 | no two built-in keys share a value: each key is recovered from its own value |
| LoggerFactory.ValidTag | index.js:42-52 | every non-empty string is a valid tag, listed or not; a valid tag is a non-empty string or absent |
| LoggerFactory.SchemaOk | index.js:26-40 | a config that passes has a numeric `throttle_wait` of at least 10 if any, a non-empty `graylogHost` when the transport is 'graylog', a boolean or absent `debug_mode`, and no empty string among its string keys |
| LoggerFactory.ConfigSource | index.js:53-54 | a falsy config becomes a fresh empty object; an object (array included) is the one written to; exactly a truthy primitive makes the property write throw |
| LoggerFactory.SelectTransport | index.js:64-79 | graylog exactly for a 'graylog' tag whose host resolves; script exactly for 'script'; console otherwise, the unresolvable graylog case included |
| LoggerFactory.IsRawTag | index.js:87 | a raw tag is a valid string tag that never selects graylog; 'graylog' is never raw |
| LoggerFactory.Wrap | index.js:87-101 | a method is raw exactly when the tag is raw; it echoes exactly when it is decorated and debug mode is truthy |
| LoggerFactory.Composed | index.js:83-102 | the final logger has exactly the nine method names, all built the same way |
| LoggerFactory.ThrottleTable | index.js:106-110 | the throttle table has the logger's keys, and each entry wraps `logger[method]` with the configured wait |
| LoggerFactory.PlanFor | index.js:50-59 | a factory call succeeds only for a valid tag and a non-array object config, and then yields nine methods on the selected base transport, never a decorated script method, a wait of at least 10, and the throttle table of its methods |
| LoggerFactory.Assembled | index.js:57-110 | after validation the plan is well formed on the selected base, and the config gains `throttle_wait` equal to the wait |
| LoggerFactory.AbortsBeforeAnyLogger | index.js:26-55 | a tag that is neither a non-empty string nor missing aborts first; a truthy primitive config aborts next; otherwise construction aborts exactly on an array config or a schema violation of the tagged config, in particular on graylog without `graylogHost` and on `throttle_wait` below 10 |
| LoggerFactory.AnyStringTagAccepted | index.js:42-55 | every non-empty tag, and a missing tag, passes validation with an empty config; only graylog needs a host |
| LoggerFactory.ThrottleWaitDefaulted | index.js:55-59 | after construction `throttle_wait` is at least 10, it is 1000 when the caller omitted it, and otherwise it is the caller's value |
| LoggerFactory.TransportSelection | index.js:66-79 | graylog with a resolvable host gives graylog; graylog without one gives console; 'script' gives script; every other tag gives console |
| LoggerFactory.RawExactlyForConsoleAndScript | index.js:83-87 | every method is the base method unchanged exactly when the tag is 'console' or 'script' |
| LoggerFactory.FanoutOnlyWhenCallerSetDebug | index.js:87-101 | for any other tag, a method echoes to the console exactly when the caller's `debug_mode` is truthy, and never when it is omitted |
| LoggerFactory.GraylogFallbackIsDecoratedConsole | index.js:66-101 | an unresolvable graylog host gives a console base whose methods are still decorated |
| LoggerFactory.ThrottleMirrorsLogger | index.js:106-110 | `throttle` has exactly the nine method names, and each entry wraps the final method with the final wait |
| LoggerFactory.ConfigIsCallersWithTag | index.js:53-59 | the kept config is the caller's fields with `transport` set to the tag and `throttle_wait` defaulted; every other key is kept as it was |
| LoggerFactory.ComposeMethods | index.js:83-102 | the clone-then-replace loop yields exactly `Composed` |
| LoggerFactory.ThrottleMethods | index.js:106-110 | the throttle loop yields exactly `ThrottleTable` of the final methods |
| LoggerFactory.Logger.constructor | index.js:110-123 | the logger holds the methods and the throttle table; `types` starts equal to `commonTypes`; `config` is the given object |
| LoggerFactory.Logger.ExtendTypes | index.js:116-118 | every existing key stays; a key of the argument takes the argument's value; `commonTypes` is unchanged; `types` still holds every built-in key |
| LoggerFactory.Logger.ListTypes | index.js:120 | returns the current `types`, which always holds every built-in key |
| LoggerFactory.Logger.Call | index.js:87-101 | a raw method is the base method, and receives every argument; a decorated method passes only the normalised record to the base; the echoing method then writes the console line for the same argument, showing the decorated fields when it is an object |
| LoggerFactory.CallDecorated | index.js:89-100 | the decorated replacement normalises the argument in place, writes the record to the base transport once, then echoes if enabled |
| LoggerFactory.EmitDecorated | index.js:94-97 | the base write comes first and the console echo second |
| LoggerFactory.BaseEvent | index.js:66-79 | a console base performs exactly the console transport's own write `ConsoleEvent(m, msg, more)` (stream, colour, and `log`'s level and timestamp); a graylog base ships a snapshot of the message under the method's severity |
| LoggerFactory.RecordEvent | index.js:89-99 | a decorated record goes to graylog as that record under the method's severity, or to the console as the console transport's line for the inspected record: the method's stream and colour with the bare prefix |
| LoggerFactory.EchoBody | index.js:96 | the echo shows an object argument as the decorated record's fields, and a primitive argument exactly as the console transport prints it (`String(arg)`, "null" for null) |
| LoggerFactory.EmitBase | index.js:66-79 | a call on the console or graylog base writes one event and leaves the message alone; the script base behaves as `ScriptLogger.Emit` |
| LoggerFactory.CreateLogger | index.js:50-125 | the factory returns the error or the logger that `PlanFor` describes, so an array config is rejected. The caller's object receives `transport` before validation, even when validation then fails. A truthy non-object config throws. A falsy config is replaced by a fresh object |
| LoggerFactory.Assemble | index.js:57-124 | after validation: writes the defaulted `throttle_wait` into the caller's object, then builds the logger from `Assembled` |

## Left out

- Console I/O, `colors` styling and the text that `util.inspect` and `JSON.stringify` produce.
  - A write is recorded as an event holding its stream, a style tag and its content.
  - An inspected or serialised object is kept as a snapshot of its fields.
  - JSON.stringify's rules (non-enumerable Error properties, nested objects) are not modelled.
- Nested objects inside a record are references that the model does not follow.
  - The echo's view of a nested object that changes later is not captured.
- The graylog transport (lib/graylog-logger) is not part of this model.
  - It is an opaque transport with the nine methods.
  - A call on it records the snapshot of what it received.
- Throttling behaviour.
  - `_.throttle` (leading edge only) and its timing are not modelled.
  - The model keeps only which method each entry wraps and its wait.
  - Calls made through `logger.throttle` are not modelled.
- `_.cloneDeep` of the base transport: the model keeps the base methods unchanged for raw tags.
- Joi.
  - Only these rules are modelled: string, number and boolean field types; strings must be non-empty; `throttle_wait` must be at least 10; `graylogHost` is required for graylog.
  - Joi's convert mode is not modelled. It accepts numeric strings and "true"/"false" strings, so the model rejects some configs that Joi accepts.
  - Infinity and NaN are not modelled.
- Numbers are integers, so fractional waits and `NaN` are not represented. `String(n)` is the decimal rendering of an integer.
- `${obj}` on an object renders as "[object Object]". Custom `toString` methods, such as an Error's "Error: msg", are not modelled.
  - `ToString` also renders an array as "[object Object]", where JavaScript joins its elements ("1,2"), and it writes every integer in plain digits, where JavaScript uses exponent form from 1e21 up. Both only affect a non-string `level` or `timestamp` passed to the console `log`.
- `Decorate.Invoke`: `fn` is a heap-independent function of the record reference, so a `fn` that reads the record's properties is not modelled; the factory's decorated methods, which do read them, are modelled separately by `LoggerFactory.CallDecorated`.
- `LoggerFactory.Logger.ExtendTypes`: takes the own enumerable properties of its argument as a map. `_.assign` with a string argument, which copies indexed characters, is not modelled.
- `LoggerFactory.Logger.ListTypes`: returns the registry as a value. Callers' mutation through the returned reference is not modelled.
- Return values of logger methods: every transport method returns `undefined`, so `Call` returns only whether it threw.
- The script-logger test (test/script-logger.js:37-47) expects a string message to come out as JSON with `level` and `timestamp`. lib/script-logger.js:9-15 passes non-object messages through unchanged, and the model follows the code.
