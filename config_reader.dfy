/** `ReadConfiguration` of aws/configurationreader: the parameter-store
    value is decoded into the struct (an error is only logged, and the
    struct keeps whatever the decoding wrote), then each field is overridden
    from its environment variable. What `GetParameterStoreParameter` leaves
    in the struct, with its error, is given as a parameter; the environment
    is the map `os.LookupEnv` consults. */
module ConfigReader {
  import opened Wrappers
  import opened ConfigValues
  import opened Text

  /** What `GetParameterStoreParameter` (aws/awsparameterstore/client.go:49-66)
      leaves in the zero struct it is given, and the error it returns. When
      `GetParameter` fails, or the value is not valid JSON, nothing is
      written: the values are zeros. When a JSON value has the wrong type
      for its field, `json.Unmarshal` skips that field, decodes the others
      and returns an `UnmarshalTypeError`: the values are then a partial
      fill and the error is set. */
  datatype StoreRead = StoreRead(values: seq<Value>, error: Option<string>)

  /** A store read that wrote nothing: the parameter could not be read or
      did not parse as JSON. */
  function Unreadable(fields: seq<FieldSpec>, err: string): (s: StoreRead)
    ensures Conforms(fields, s.values) && s.error == Some(err)
    ensures forall k :: 0 <= k < |fields| ==> IsZero(s.values[k])
  {
    var zeros := Zeros(fields);
    assert forall k :: 0 <= k < |fields| ==> zeros[k] == Zero(fields[k].kind);
    StoreRead(zeros, Some(err))
  }

  /** What the reader returns for a store read and an environment: the
      fields start from what the store wrote, whether or not it failed. */
  function Configured(fields: seq<FieldSpec>, store: StoreRead, env: map<string, string>): (o: Outcome)
    requires |store.values| == |fields|
    ensures !o.Failed?
  {
    var r := ReadFields(Lenient, fields, store.values, env);
    if r.Success? then Read(r.value) else Panicked(r.error)
  }

  /** The field loop; `logged` is the store error written to the Info log. */
  method ReadConfiguration(fields: seq<FieldSpec>, store: StoreRead, env: map<string, string>)
    returns (outcome: Outcome, logged: Option<string>)
    requires Conforms(fields, store.values)
    ensures logged == store.error
    ensures outcome == Configured(fields, store, env)
  {
    logged := store.error;
    var cfg := store.values;
    ghost var initial := cfg;
    var i := 0;
    while i < |fields|
      invariant 0 <= i <= |fields|
      invariant Progress(Lenient, fields, initial, cfg, env, i)
    {
      ProgressField(Lenient, fields, initial, cfg, env, i);
      var step := OverrideField(fields[i], cfg[i], env);
      if step.Failure? {
        ProgressPanics(Lenient, fields, initial, cfg, env, i);
        return Panicked(step.error), logged;
      }
      ProgressStep(Lenient, fields, initial, cfg, env, i);
      cfg := cfg[i := step.value];
      i := i + 1;
    }
    ProgressDone(Lenient, fields, initial, cfg, env);
    outcome := Read(cfg);
  }

  /** The body of the loop for one field. */
  method OverrideField(f: FieldSpec, v: Value, env: map<string, string>) returns (r: Result<Value, PanicCause>)
    ensures r == FieldStep(Lenient, f, v, env)
  {
    var tag := f.envTag;
    if tag == [] {
      tag := f.jsonTag;
    }
    var found := tag in env;
    if !found && IsZero(v) && !v.BoolValue? {
      return Failure(Missing(tag));
    }
    r := Success(v);
    if found && f.exported {
      var text := env[tag];
      match v {
        case StringValue(_) =>
          r := Success(StringValue(text));
        case BoolValue(_) =>
          var b := ParseBool(text);
          if b.None? {
            return Failure(NotABool(text));
          }
          r := Success(BoolValue(b.value));
        case IntValue(_) =>
          var n := Atoi(text);
          if n.None? {
            return Failure(NotAnInt(text));
          }
          r := Success(IntValue(n.value));
        case OtherValue(_) =>
      }
    }
  }

  /** A field whose variable is unset keeps the value the store gave it. */
  lemma KeepsStoreValue(fields: seq<FieldSpec>, store: StoreRead, env: map<string, string>, k: int)
    requires |store.values| == |fields|
    requires 0 <= k < |fields| && VariableName(Lenient, fields[k]) !in env
    requires Configured(fields, store, env).Read?
    ensures Configured(fields, store, env).values[k] == store.values[k]
  {
    ReadFieldsSuccess(Lenient, fields, store.values, env);
  }

  /** A field whose variable is set and parses gets the variable's value,
      whatever the store said. */
  lemma VariableOverrides(fields: seq<FieldSpec>, store: StoreRead, env: map<string, string>, k: int)
    requires Conforms(fields, store.values)
    requires 0 <= k < |fields| && fields[k].exported && VariableName(Lenient, fields[k]) in env
    requires Configured(fields, store, env).Read?
    ensures var text := env[VariableName(Lenient, fields[k])];
      var v := Configured(fields, store, env).values[k];
      (fields[k].kind == StringKind ==> v == StringValue(text)) &&
      (fields[k].kind == BoolKind ==> v.BoolValue? && ParseBool(text) == Some(v.b)) &&
      (fields[k].kind == IntKind ==> v.IntValue? && Atoi(text) == Some(v.i))
  {
    var initial := store.values;
    assert KindOf(initial[k]) == fields[k].kind;
    ReadFieldsSuccess(Lenient, fields, initial, env);
    assert FieldStep(Lenient, fields[k], initial[k], env).Success?;
  }

  /** A store read that wrote nothing and an environment that sets every
      field build the struct wholly from the environment. */
  lemma FromEnvironmentAlone(fields: seq<FieldSpec>, err: string, env: map<string, string>)
    requires forall k :: 0 <= k < |fields| ==> fields[k].exported && VariableName(Lenient, fields[k]) in env
    requires forall k :: 0 <= k < |fields| ==> Override(Zero(fields[k].kind), env[VariableName(Lenient, fields[k])]).Success?
    ensures var o := Configured(fields, Unreadable(fields, err), env);
      o.Read? && |o.values| == |fields| &&
      forall k :: 0 <= k < |fields| ==> o.values[k] == Override(Zero(fields[k].kind), env[VariableName(Lenient, fields[k])]).value
  {
    var zeros := Zeros(fields);
    assert forall k :: 0 <= k < |fields| ==> zeros[k] == Zero(fields[k].kind);
    ReadFieldsSuccess(Lenient, fields, zeros, env);
  }

  /** A field the store left zero, whose variable is absent and which is
      not a bool, makes the reader panic, whether or not the store read
      failed; an absent bool is no reason to panic. */
  lemma MissingPanics(fields: seq<FieldSpec>, store: StoreRead, env: map<string, string>, k: int)
    requires Conforms(fields, store.values)
    requires 0 <= k < |fields| && VariableName(Lenient, fields[k]) !in env
    requires IsZero(store.values[k]) && fields[k].kind != BoolKind
    ensures Configured(fields, store, env).Panicked?
  {
    assert KindOf(store.values[k]) == fields[k].kind;
    ReadFieldsSuccess(Lenient, fields, store.values, env);
    assert FieldStep(Lenient, fields[k], store.values[k], env).Failure?;
  }

  /** The `Config` of the package's tests: `Host` (json "host"), `Port`
      (json "times") and `Flag` (json "flag"). */
  const TestFields: seq<FieldSpec> := [
    FieldSpec("", "host", true, StringKind),
    FieldSpec("", "times", true, IntKind),
    FieldSpec("", "flag", true, BoolKind)]

  const TestStore: seq<Value> := [StringValue("http://localhost"), IntValue(8080), BoolValue(true)]

  /** With the store value and `host` and `flag` overridden, `Port` stays 8080. */
  lemma OverrideExample()
    ensures Configured(TestFields, StoreRead(TestStore, None), map["host" := "http://google.no", "flag" := "false"])
      == Read([StringValue("http://google.no"), IntValue(8080), BoolValue(false)])
  {
    var env := map["host" := "http://google.no", "flag" := "false"];
    var host := StringValue("http://google.no");
    assert ReadFields(Lenient, TestFields[..0], TestStore[..0], env) == Success([]);
    assert FieldStep(Lenient, TestFields[0], TestStore[0], env) == Success(host);
    ReadFieldsSnoc(Lenient, TestFields, TestStore, env, 0);
    assert "times" !in env;
    assert FieldStep(Lenient, TestFields[1], TestStore[1], env) == Success(IntValue(8080));
    ReadFieldsSnoc(Lenient, TestFields, TestStore, env, 1);
    assert ParseBool("false") == Some(false);
    assert FieldStep(Lenient, TestFields[2], TestStore[2], env) == Success(BoolValue(false));
    ReadFieldsSnoc(Lenient, TestFields, TestStore, env, 2);
    assert TestFields[..3] == TestFields && TestStore[..3] == TestStore;
  }

  /** `Atoi` of the port of the tests. */
  lemma AtoiPort()
    ensures Atoi("8080") == Some(8080)
  {
    var s := "8080";
    assert s[..3] == "808" && "808"[..2] == "80" && "80"[..1] == "8" && "8"[..0] == "";
    assert AllDigits(s);
    assert DigitsValue("8") == 8;
    assert DigitsValue("80") == 80;
    assert DigitsValue("808") == 808;
    assert DigitsValue(s) == 8080;
  }

  /** With a store read that wrote nothing, and no `flag` variable, `Flag`
      stays false and nothing panics. */
  lemma MissingBoolStaysFalse()
    ensures Configured(TestFields, Unreadable(TestFields, "unauthorized"), map["host" := "http://google.no", "times" := "8080"])
      == Read([StringValue("http://google.no"), IntValue(8080), BoolValue(false)])
  {
    var env := map["host" := "http://google.no", "times" := "8080"];
    var zeros := Zeros(TestFields);
    assert zeros == [StringValue(""), IntValue(0), BoolValue(false)];
    assert ReadFields(Lenient, TestFields[..0], zeros[..0], env) == Success([]);
    assert FieldStep(Lenient, TestFields[0], zeros[0], env) == Success(StringValue("http://google.no"));
    ReadFieldsSnoc(Lenient, TestFields, zeros, env, 0);
    AtoiPort();
    assert FieldStep(Lenient, TestFields[1], zeros[1], env) == Success(IntValue(8080));
    ReadFieldsSnoc(Lenient, TestFields, zeros, env, 1);
    assert "flag" !in env;
    assert FieldStep(Lenient, TestFields[2], zeros[2], env) == Success(BoolValue(false));
    ReadFieldsSnoc(Lenient, TestFields, zeros, env, 2);
    assert TestFields[..3] == TestFields && zeros[..3] == zeros;
  }

  /** A stored value whose `times` is not a number: `json.Unmarshal` still
      writes `host` and `flag` and reports the type error, which is only
      logged; `times` comes from the environment and nothing panics. */
  lemma PartialStoreExample()
    ensures Configured(TestFields,
                       StoreRead([StringValue("db"), IntValue(0), BoolValue(true)], Some("json: cannot unmarshal string into Go struct field Config.times of type int")),
                       map["times" := "8080"])
      == Read([StringValue("db"), IntValue(8080), BoolValue(true)])
  {
    var env := map["times" := "8080"];
    var partial := [StringValue("db"), IntValue(0), BoolValue(true)];
    assert "host" !in env && "flag" !in env;
    assert ReadFields(Lenient, TestFields[..0], partial[..0], env) == Success([]);
    assert FieldStep(Lenient, TestFields[0], partial[0], env) == Success(StringValue("db"));
    ReadFieldsSnoc(Lenient, TestFields, partial, env, 0);
    AtoiPort();
    assert FieldStep(Lenient, TestFields[1], partial[1], env) == Success(IntValue(8080));
    ReadFieldsSnoc(Lenient, TestFields, partial, env, 1);
    assert FieldStep(Lenient, TestFields[2], partial[2], env) == Success(BoolValue(true));
    ReadFieldsSnoc(Lenient, TestFields, partial, env, 2);
    assert TestFields[..3] == TestFields && partial[..3] == partial;
  }
}
