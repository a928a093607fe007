/** `ReadConfiguration` of configurationreader, the stricter of the two
    readers: a parameter-store error is returned and no field is looked at;
    each field is read from the variable named by its `json` tag; and a
    field with no variable panics whenever it is zero, a false bool
    included. */
module StrictConfigReader {
  import opened Wrappers
  import opened ConfigValues
  import ConfigReader

  /** What the reader returns for a store outcome and an environment. */
  function Configured(fields: seq<FieldSpec>, store: Result<seq<Value>, string>, env: map<string, string>): (o: Outcome)
    requires store.Success? ==> |store.value| == |fields|
    ensures store.Failure? <==> o.Failed?
    ensures o.Failed? ==> o.err == store.error
  {
    if store.Failure? then Failed(store.error)
    else
      var r := ReadFields(Strict, fields, store.value, env);
      if r.Success? then Read(r.value) else Panicked(r.error)
  }

  method ReadConfiguration(fields: seq<FieldSpec>, store: Result<seq<Value>, string>, env: map<string, string>)
    returns (outcome: Outcome)
    requires store.Success? ==> Conforms(fields, store.value)
    ensures outcome == Configured(fields, store, env)
  {
    if store.Failure? {
      return Failed(store.error);
    }
    var cfg := store.value;
    ghost var initial := cfg;
    var i := 0;
    while i < |fields|
      invariant 0 <= i <= |fields|
      invariant Progress(Strict, fields, initial, cfg, env, i)
    {
      ProgressField(Strict, fields, initial, cfg, env, i);
      var step := OverrideField(fields[i], cfg[i], env);
      if step.Failure? {
        ProgressPanics(Strict, fields, initial, cfg, env, i);
        return Panicked(step.error);
      }
      ProgressStep(Strict, fields, initial, cfg, env, i);
      cfg := cfg[i := step.value];
      i := i + 1;
    }
    ProgressDone(Strict, fields, initial, cfg, env);
    outcome := Read(cfg);
  }

  /** The body of the loop for one field. */
  method OverrideField(f: FieldSpec, v: Value, env: map<string, string>) returns (r: Result<Value, PanicCause>)
    ensures r == FieldStep(Strict, f, v, env)
  {
    var tag := f.jsonTag;
    var found := tag in env;
    if !found && IsZero(v) {
      return Failure(Missing(tag));
    }
    r := Success(v);
    if found && f.exported {
      var text := env[tag];
      match v {
        case StringValue(_) =>
          r := Success(StringValue(text));
        case BoolValue(_) =>
          var b := ParseBool(text);
          if b.None? {
            return Failure(NotABool(text));
          }
          r := Success(BoolValue(b.value));
        case IntValue(_) =>
          var n := Atoi(text);
          if n.None? {
            return Failure(NotAnInt(text));
          }
          r := Success(IntValue(n.value));
        case OtherValue(_) =>
      }
    }
  }

  /** A field whose variable is unset keeps the value the store gave it. */
  lemma KeepsStoreValue(fields: seq<FieldSpec>, store: Result<seq<Value>, string>, env: map<string, string>, k: int)
    requires store.Success? && |store.value| == |fields|
    requires 0 <= k < |fields| && fields[k].jsonTag !in env
    requires Configured(fields, store, env).Read?
    ensures Configured(fields, store, env).values[k] == store.value[k]
  {
    ReadFieldsSuccess(Strict, fields, store.value, env);
  }

  /** A stored false bool with no variable panics here, naming the `json`
      tag; the aws reader, given the same fields, store and environment,
      keeps it false. */
  lemma FalseBoolContrast(fields: seq<FieldSpec>, values: seq<Value>, env: map<string, string>, k: int)
    requires Conforms(fields, values)
    requires 0 <= k < |fields| && values[k] == BoolValue(false)
    requires fields[k].envTag == [] && fields[k].jsonTag !in env
    requires forall j :: 0 <= j < k ==> FieldStep(Strict, fields[j], values[j], env).Success?
    ensures Configured(fields, Success(values), env) == Panicked(Missing(fields[k].jsonTag))
    ensures ConfigReader.Configured(fields, ConfigReader.StoreRead(values, None), env).Read? ==>
      ConfigReader.Configured(fields, ConfigReader.StoreRead(values, None), env).values[k] == BoolValue(false)
  {
    ReadFieldsSuccess(Strict, fields, values, env);
    ReadFieldsFailure(Strict, fields, values, env);
    ReadFieldsSuccess(Lenient, fields, values, env);
  }
}
