/**
 * The metadata decorator: wraps a logging function so that every argument becomes a record
 * carrying non-empty `env`, `service_name` and `type` fields before the function sees it.
 */
module Decorate {
  import opened JsValues

  /** The sentinel used when no value is configured anywhere. */
  const Unknown: string := "unknown"

  /** The three fields the decorator guarantees. */
  const Filled: set<string> := {"env", "service_name", "type"}

  /** `process.env[name]`: a variable that is not set reads as `undefined`. */
  function EnvVar(processEnv: map<string, string>, name: string): (v: Value)
    ensures v.Undef? || v.Str?
    ensures v.Str? <==> name in processEnv
    ensures name in processEnv ==> v.s == processEnv[name]
    ensures Truthy(v) <==> name in processEnv && processEnv[name] != ""
  {
    if name in processEnv then Str(processEnv[name]) else Undef
  }

  /** `config[key] || process.env[name] || 'unknown'`. */
  function Fallback(configured: Value, processEnv: map<string, string>, name: string): (r: Value)
    ensures Truthy(r)
    ensures Truthy(configured) ==> r == configured
    ensures !Truthy(configured) && name in processEnv && processEnv[name] != "" ==> r == Str(processEnv[name])
    ensures !Truthy(configured) && (name !in processEnv || processEnv[name] == "") ==> r == Str(Unknown)
  {
    Or(configured, Or(EnvVar(processEnv, name), Str(Unknown)))
  }

  /**
   * `config = config || {}`: property reads on the decorator's config. Only an object has the
   * properties the decorator reads; on `{}` or a primitive they all read as `undefined`.
   */
  function ConfigFields(config: Value): (f: map<string, Value>)
    reads Footprint(config)
    ensures IsObject(config) ==> f == config.obj.fields
    ensures !IsObject(config) ==> forall k :: Get(f, k) == Undef
  {
    if config.Ref? then config.obj.fields else map[]
  }

  /** The record before filling: an object as it is, any other value wrapped as `{message: arg}`. */
  function Initial(arg: Value): (r: map<string, Value>)
    reads Footprint(arg)
    ensures !IsObject(arg) ==> r == map["message" := arg]
    ensures IsObject(arg) ==> r == arg.obj.fields
  {
    if IsObject(arg) then arg.obj.fields else map["message" := arg]
  }

  /** `if (!arg[key]) { arg[key] = value; }` */
  function Fill(fields: map<string, Value>, key: string, value: Value): (r: map<string, Value>)
    ensures key in r
    ensures Truthy(Get(fields, key)) ==> r[key] == fields[key]
    ensures !Truthy(Get(fields, key)) ==> r[key] == value
    ensures forall k :: k != key ==> (k in r <==> k in fields)
    ensures forall k :: k != key && k in fields ==> r[k] == fields[k]
  {
    if Truthy(Get(fields, key)) then fields else fields[key := value]
  }

  /** Filling `env`, `service_name` and `type` in turn with truthy values makes all three truthy. */
  lemma FillFilled(fields: map<string, Value>, env: Value, service: Value, kind: Value)
    requires Truthy(env) && Truthy(service) && Truthy(kind)
    ensures var r := Fill(Fill(Fill(fields, "env", env), "service_name", service), "type", kind);
            && (forall k :: k in Filled ==> k in r && Truthy(r[k]))
            && (forall k :: k in Filled && Truthy(Get(fields, k)) ==> r[k] == fields[k])
            && (!Truthy(Get(fields, "env")) ==> r["env"] == env)
            && (!Truthy(Get(fields, "service_name")) ==> r["service_name"] == service)
            && (!Truthy(Get(fields, "type")) ==> r["type"] == kind)
  {
  }

  /** Filling `env`, `service_name` and `type` in turn leaves every other key as it was. */
  lemma FillOthers(fields: map<string, Value>, env: Value, service: Value, kind: Value)
    ensures var r := Fill(Fill(Fill(fields, "env", env), "service_name", service), "type", kind);
            && (forall k :: k !in Filled ==> (k in r <==> k in fields))
            && (forall k :: k !in Filled && k in fields ==> r[k] == fields[k])
  {
  }

  /**
   * The fields of the record the wrapped function receives: `env` and `service_name` filled
   * from the fallback chain and `type` with "unknown", each only where it was falsy.
   */
  function Normalised(fields: map<string, Value>, config: map<string, Value>, processEnv: map<string, string>): (r: map<string, Value>)
    ensures forall k :: k in Filled ==> k in r && Truthy(r[k])
    ensures forall k :: k in Filled && Truthy(Get(fields, k)) ==> r[k] == fields[k]
    ensures !Truthy(Get(fields, "env")) ==> r["env"] == Fallback(Get(config, "env"), processEnv, "ENV")
    ensures !Truthy(Get(fields, "service_name")) ==> r["service_name"] == Fallback(Get(config, "service_name"), processEnv, "SERVICE_NAME")
    ensures !Truthy(Get(fields, "type")) ==> r["type"] == Str(Unknown)
    ensures forall k :: k !in Filled ==> (k in r <==> k in fields)
    ensures forall k :: k !in Filled && k in fields ==> r[k] == fields[k]
  {
    var env := Fallback(Get(config, "env"), processEnv, "ENV");
    var service := Fallback(Get(config, "service_name"), processEnv, "SERVICE_NAME");
    FillFilled(fields, env, service, Str(Unknown));
    FillOthers(fields, env, service, Str(Unknown));
    Fill(Fill(Fill(fields, "env", env), "service_name", service), "type", Str(Unknown))
  }

  /** Decorating an already decorated record changes nothing, whatever the configuration. */
  lemma NormalisedIdempotent(fields: map<string, Value>, config: map<string, Value>, processEnv: map<string, string>,
                             config': map<string, Value>, processEnv': map<string, string>)
    ensures Normalised(Normalised(fields, config, processEnv), config', processEnv') == Normalised(fields, config, processEnv)
  {
    var once := Normalised(fields, config, processEnv);
    var twice := Normalised(once, config', processEnv');
    assert twice.Keys == once.Keys;
    forall k | k in once ensures twice[k] == once[k] {
      if k in Filled {
        assert Truthy(Get(once, k));
      }
    }
  }

  /**
   * The body of the wrapper `decorate(fn, config)` returns, up to the call of `fn`: an object
   * argument is filled in place and is itself the record; any other argument is wrapped in a
   * fresh record. Returns the record `fn` is called with.
   */
  method Normalise(arg: Value, config: Value, processEnv: map<string, string>) returns (record: JsObject)
    modifies Footprint(arg)
    ensures IsObject(arg) ==> record == arg.obj
    ensures !IsObject(arg) ==> fresh(record) && "message" in record.fields && record.fields["message"] == arg
    ensures IsObject(arg) ==> ("message" in record.fields <==> "message" in old(arg.obj.fields))
    ensures record.fields == Normalised(old(Initial(arg)), old(ConfigFields(config)), processEnv)
  {
    var cfg := ConfigFields(config);
    if IsObject(arg) {
      record := arg.obj;
    } else {
      record := new JsObject(map["message" := arg]);
    }
    ghost var initial := record.fields;
    var env := Fallback(Get(cfg, "env"), processEnv, "ENV");
    if !Truthy(Get(record.fields, "env")) {
      record.fields := record.fields["env" := env];
    }
    assert record.fields == Fill(initial, "env", env);
    ghost var withEnv := record.fields;
    var service := Fallback(Get(cfg, "service_name"), processEnv, "SERVICE_NAME");
    if !Truthy(Get(record.fields, "service_name")) {
      record.fields := record.fields["service_name" := service];
    }
    assert record.fields == Fill(withEnv, "service_name", service);
    ghost var withService := record.fields;
    if !Truthy(Get(record.fields, "type")) {
      record.fields := record.fields["type" := Str(Unknown)];
    }
    assert record.fields == Fill(withService, "type", Str(Unknown));
  }

  /**
   * `decorate(fn, config)(arg)` for a side-effect-free `fn`, the wrapper on its own: normalises
   * `arg`, calls `fn` once with the record and returns what `fn` returns. The factory's
   * decorated logger methods, whose `fn` writes to a transport, are `LoggerFactory.CallDecorated`.
   * Here `fn` is a total function of the value it is given and does not read the heap, so it sees
   * the record's identity but not its properties (`arg => arg.env` is not expressible).
   */
  method Invoke<R>(fn: Value -> R, config: Value, processEnv: map<string, string>, arg: Value) returns (result: R, record: JsObject)
    modifies Footprint(arg)
    ensures result == fn(Ref(record))
    ensures IsObject(arg) ==> record == arg.obj
    ensures !IsObject(arg) ==> fresh(record) && "message" in record.fields && record.fields["message"] == arg
    ensures record.fields == Normalised(old(Initial(arg)), old(ConfigFields(config)), processEnv)
  {
    record := Normalise(arg, config, processEnv);
    result := fn(Ref(record));
  }
}
