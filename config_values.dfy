/** The configuration structs the readers of `configurationreader` and
    `aws/configurationreader` fill, seen as `reflect` sees them: a sequence
    of fields, each with its tags, whether it is exported (settable) and its
    kind; and the parsing of environment values (`strconv.ParseBool`,
    `strconv.Atoi`) the readers apply. */
module ConfigValues {
  import opened Wrappers
  import opened Text

  datatype Kind = StringKind | BoolKind | IntKind | OtherKind

  /** A field's value; a field of any other kind is only known to be zero or not. */
  datatype Value = StringValue(s: string) | BoolValue(b: bool) | IntValue(i: int) | OtherValue(zero: bool)

  function KindOf(v: Value): Kind {
    match v
    case StringValue(_) => StringKind
    case BoolValue(_) => BoolKind
    case IntValue(_) => IntKind
    case OtherValue(_) => OtherKind
  }

  /** `reflect.Value.IsZero`. */
  predicate IsZero(v: Value) {
    match v
    case StringValue(s) => s == []
    case BoolValue(b) => !b
    case IntValue(i) => i == 0
    case OtherValue(z) => z
  }

  /** The zero value of a kind, what `var cfg T` holds. */
  function Zero(k: Kind): (v: Value)
    ensures KindOf(v) == k && IsZero(v)
  {
    match k
    case StringKind => StringValue([])
    case BoolKind => BoolValue(false)
    case IntKind => IntValue(0)
    case OtherKind => OtherValue(true)
  }

  /** A struct field: its `env` and `json` tags ("" when absent), whether it
      can be set (exported) and its kind. */
  datatype FieldSpec = FieldSpec(envTag: string, jsonTag: string, exported: bool, kind: Kind)

  /** Values that fit the fields, one of the right kind per field. */
  predicate Conforms(fields: seq<FieldSpec>, values: seq<Value>) {
    |values| == |fields| && forall k :: 0 <= k < |fields| ==> KindOf(values[k]) == fields[k].kind
  }

  /** The zero-valued struct. */
  function Zeros(fields: seq<FieldSpec>): (values: seq<Value>)
    ensures Conforms(fields, values)
    ensures forall k :: 0 <= k < |values| ==> IsZero(values[k])
  {
    if fields == [] then [] else [Zero(fields[0].kind)] + Zeros(fields[1..])
  }

  /** `strconv.ParseBool`. */
  function ParseBool(s: string): (r: Option<bool>)
    ensures r == Some(true) <==> s in {"1", "t", "T", "TRUE", "true", "True"}
    ensures r == Some(false) <==> s in {"0", "f", "F", "FALSE", "false", "False"}
  {
    match s
    case "1" => Some(true)
    case "t" => Some(true)
    case "T" => Some(true)
    case "TRUE" => Some(true)
    case "true" => Some(true)
    case "True" => Some(true)
    case "0" => Some(false)
    case "f" => Some(false)
    case "F" => Some(false)
    case "FALSE" => Some(false)
    case "false" => Some(false)
    case "False" => Some(false)
    case _ => None
  }

  /** `strconv.FormatBool`. */
  function FormatBool(b: bool): string {
    if b then "true" else "false"
  }

  lemma ParseFormatBool(b: bool)
    ensures ParseBool(FormatBool(b)) == Some(b)
  {
  }

  const MinInt64: int := -0x8000_0000_0000_0000
  const MaxInt64: int := 0x7FFF_FFFF_FFFF_FFFF

  /** A magnitude with its sign. */
  function Signed(negative: bool, magnitude: int): int {
    if negative then -magnitude else magnitude
  }

  /** A run of decimal digits with its sign, within the range of `int`. */
  function SignedValue(negative: bool, digits: string): (r: Option<int>)
    ensures r.Some? <==>
      (digits != [] && AllDigits(digits) && MinInt64 <= Signed(negative, DigitsValue(digits)) <= MaxInt64)
    ensures r.Some? ==> r.value == Signed(negative, DigitsValue(digits))
  {
    if digits == [] || !AllDigits(digits) then None
    else
      var n := Signed(negative, DigitsValue(digits));
      if n < MinInt64 || MaxInt64 < n then None else Some(n)
  }

  /** `strconv.Atoi` on a 64-bit platform: an optional sign, then one or
      more decimal digits, within the range of `int`. */
  function Atoi(s: string): (r: Option<int>)
    ensures r.Some? ==> MinInt64 <= r.value <= MaxInt64
  {
    if |s| > 0 && s[0] == '-' then SignedValue(true, s[1..])
    else if |s| > 0 && s[0] == '+' then SignedValue(false, s[1..])
    else SignedValue(false, s)
  }

  /** Every `int` reads back from its decimal text. */
  lemma AtoiIntText(n: int)
    requires MinInt64 <= n <= MaxInt64
    ensures Atoi(IntText(n)) == Some(n)
  {
    if n < 0 {
      AtoiNegative(-n);
    } else {
      AtoiNatural(n);
    }
  }

  lemma AtoiNegative(m: nat)
    requires 0 < m <= -MinInt64
    ensures Atoi("-" + Decimal(m)) == Some(0 - m as int)
  {
    var d := Decimal(m);
    DecimalValue(m);
    assert ("-" + d)[1..] == d;
    assert SignedValue(true, d) == Some(0 - m as int);
  }

  lemma AtoiNatural(m: nat)
    requires m <= MaxInt64
    ensures Atoi(Decimal(m)) == Some(m)
  {
    var d := Decimal(m);
    DecimalValue(m);
    assert '0' <= d[0] <= '9';
    assert SignedValue(false, d) == Some(m);
  }

  /** Text without digits, and a bare sign, are refused. */
  lemma AtoiRefuses(s: string)
    ensures Atoi("") == None && Atoi("+") == None && Atoi("-") == None
    ensures s != [] && !IsDigit(s[0]) && s[0] != '+' && s[0] != '-' ==> Atoi(s) == None
  {
    assert "+"[1..] == [] && "-"[1..] == [];
  }

  /** Why a reader panics: a field with neither a stored value nor a
      variable, or a variable that does not parse as the field's kind. */
  datatype PanicCause = Missing(tag: string) | NotABool(text: string) | NotAnInt(text: string)

  /** The switch on the field's kind for a variable that is set: strings
      verbatim, bools through `ParseBool`, ints through `Atoi`, and fields of
      any other kind left as they are. */
  function Override(current: Value, text: string): (r: Result<Value, PanicCause>)
    ensures r.Success? ==> KindOf(r.value) == KindOf(current)
    ensures current.StringValue? ==> r == Success(StringValue(text))
    ensures current.BoolValue? ==>
      (r.Failure? <==> ParseBool(text).None?) && (r.Success? ==> r.value == BoolValue(ParseBool(text).value))
    ensures current.IntValue? ==>
      (r.Failure? <==> Atoi(text).None?) && (r.Success? ==> r.value == IntValue(Atoi(text).value))
    ensures current.OtherValue? ==> r == Success(current)
  {
    match current
    case StringValue(_) => Success(StringValue(text))
    case BoolValue(_) =>
      var b := ParseBool(text);
      if b.None? then Failure(NotABool(text)) else Success(BoolValue(b.value))
    case IntValue(_) =>
      var i := Atoi(text);
      if i.None? then Failure(NotAnInt(text)) else Success(IntValue(i.value))
    case OtherValue(_) => Success(current)
  }

  /** What a reader returns: the filled struct, a panic, or the store's error. */
  datatype Outcome = Read(values: seq<Value>) | Panicked(cause: PanicCause) | Failed(err: string)

  /** The two readers' rules: `Lenient` (aws/configurationreader) reads the
      `env` tag before the `json` tag and lets a missing bool stay false;
      `Strict` (configurationreader) reads the `json` tag only and requires
      every field, bools included. */
  datatype Rule = Lenient | Strict

  /** The environment variable a field is read from. */
  function VariableName(rule: Rule, f: FieldSpec): (tag: string)
    ensures tag == f.envTag || tag == f.jsonTag
    ensures rule.Strict? ==> tag == f.jsonTag
    ensures rule.Lenient? && f.envTag != [] ==> tag == f.envTag
    ensures rule.Lenient? && f.envTag == [] ==> tag == f.jsonTag
  {
    if rule.Lenient? && f.envTag != [] then f.envTag else f.jsonTag
  }

  /** Whether a field with no variable set makes the reader panic. */
  predicate Required(rule: Rule, v: Value) {
    IsZero(v) && (rule.Strict? || KindOf(v) != BoolKind)
  }

  /** One turn of the field loop: a field whose variable is unset panics
      when it is still zero (a bool exempt under `Lenient`); a set variable
      overrides an exported field; otherwise the field keeps its value. */
  function FieldStep(rule: Rule, f: FieldSpec, v: Value, env: map<string, string>): (r: Result<Value, PanicCause>)
    ensures (r.Failure? && r.error.Missing?) <==> VariableName(rule, f) !in env && Required(rule, v)
    ensures r.Failure? && r.error.Missing? ==> r.error.tag == VariableName(rule, f)
    ensures VariableName(rule, f) !in env ==> r.Failure? || r == Success(v)
    ensures VariableName(rule, f) in env && f.exported ==> r == Override(v, env[VariableName(rule, f)])
    ensures VariableName(rule, f) in env && !f.exported ==> r == Success(v)
    ensures r.Success? ==> KindOf(r.value) == KindOf(v)
    ensures KindOf(v) == OtherKind ==> r.Failure? || r == Success(v)
  {
    var tag := VariableName(rule, f);
    if tag !in env && Required(rule, v) then Failure(Missing(tag))
    else if tag in env && f.exported then Override(v, env[tag])
    else Success(v)
  }

  /** The field loop over the whole struct: the first field that panics
      decides the panic; otherwise every field's new value. */
  function ReadFields(rule: Rule, fields: seq<FieldSpec>, values: seq<Value>, env: map<string, string>): (r: Result<seq<Value>, PanicCause>)
    requires |values| == |fields|
    ensures r.Success? ==> |r.value| == |fields|
  {
    if fields == [] then Success([])
    else
      var n := |fields| - 1;
      var init := ReadFields(rule, fields[..n], values[..n], env);
      if init.Failure? then init
      else
        var last := FieldStep(rule, fields[n], values[n], env);
        if last.Failure? then Failure(last.error) else Success(init.value + [last.value])
  }

  /** `ReadFields` succeeds exactly when every field's step does, giving
      each field the value of its own step. */
  lemma {:induction false} ReadFieldsSuccess(rule: Rule, fields: seq<FieldSpec>, values: seq<Value>, env: map<string, string>)
    requires |values| == |fields|
    ensures ReadFields(rule, fields, values, env).Success? <==>
      forall k :: 0 <= k < |fields| ==> FieldStep(rule, fields[k], values[k], env).Success?
    ensures ReadFields(rule, fields, values, env).Success? ==>
      forall k :: 0 <= k < |fields| ==> ReadFields(rule, fields, values, env).value[k] == FieldStep(rule, fields[k], values[k], env).value
  {
    if fields != [] {
      var n := |fields| - 1;
      var fs, vs := fields[..n], values[..n];
      ReadFieldsSuccess(rule, fs, vs, env);
      assert forall k :: 0 <= k < n ==> fs[k] == fields[k] && vs[k] == values[k];
    }
  }

  /** When `ReadFields` fails, it fails with the error of the first field
      whose step fails. */
  lemma {:induction false} ReadFieldsFailure(rule: Rule, fields: seq<FieldSpec>, values: seq<Value>, env: map<string, string>)
    requires |values| == |fields|
    requires ReadFields(rule, fields, values, env).Failure?
    ensures exists k ::
      FirstFailure(rule, fields, values, env, k) &&
      ReadFields(rule, fields, values, env).error == FieldStep(rule, fields[k], values[k], env).error
  {
    var n := |fields| - 1;
    var fs, vs := fields[..n], values[..n];
    assert forall k :: 0 <= k < n ==> fs[k] == fields[k] && vs[k] == values[k];
    if ReadFields(rule, fs, vs, env).Failure? {
      ReadFieldsFailure(rule, fs, vs, env);
      var k :| FirstFailure(rule, fs, vs, env, k) &&
        ReadFields(rule, fs, vs, env).error == FieldStep(rule, fs[k], vs[k], env).error;
      assert FirstFailure(rule, fields, values, env, k);
    } else {
      ReadFieldsSuccess(rule, fs, vs, env);
      assert FirstFailure(rule, fields, values, env, n);
    }
  }

  /** Field `k` is the first whose step fails. */
  predicate FirstFailure(rule: Rule, fields: seq<FieldSpec>, values: seq<Value>, env: map<string, string>, k: int)
    requires |values| == |fields|
  {
    0 <= k < |fields| && FieldStep(rule, fields[k], values[k], env).Failure? &&
    forall j :: 0 <= j < k ==> FieldStep(rule, fields[j], values[j], env).Success?
  }

  /** One more turn of the field loop after a prefix that succeeded. */
  lemma ReadFieldsSnoc(rule: Rule, fields: seq<FieldSpec>, values: seq<Value>, env: map<string, string>, i: nat)
    requires |values| == |fields| && i < |fields|
    requires ReadFields(rule, fields[..i], values[..i], env).Success?
    ensures var step := FieldStep(rule, fields[i], values[i], env);
      ReadFields(rule, fields[..i + 1], values[..i + 1], env) ==
        if step.Failure? then Failure(step.error)
        else Success(ReadFields(rule, fields[..i], values[..i], env).value + [step.value])
  {
    assert fields[..i + 1][..i] == fields[..i] && values[..i + 1][..i] == values[..i];
  }

  /** Once a prefix of the fields panics, the rest are never reached. */
  lemma {:induction false} ReadFieldsStops(rule: Rule, fields: seq<FieldSpec>, values: seq<Value>, env: map<string, string>, n: nat)
    requires |values| == |fields| && n <= |fields|
    requires ReadFields(rule, fields[..n], values[..n], env).Failure?
    ensures ReadFields(rule, fields, values, env) == ReadFields(rule, fields[..n], values[..n], env)
    decreases |fields| - n
  {
    if n < |fields| {
      var m := |fields| - 1;
      assert fields[..m][..n] == fields[..n] && values[..m][..n] == values[..n];
      ReadFieldsStops(rule, fields[..m], values[..m], env, n);
    } else {
      assert fields[..n] == fields && values[..n] == values;
    }
  }
  /** After `i` turns of the loop, the first `i` fields hold what the
      specification gives them and the rest still hold their initial values. */
  ghost predicate Progress(rule: Rule, fields: seq<FieldSpec>, initial: seq<Value>, cfg: seq<Value>, env: map<string, string>, i: nat) {
    |initial| == |fields| && |cfg| == |fields| && i <= |fields| &&
    ReadFields(rule, fields[..i], initial[..i], env) == Success(cfg[..i]) &&
    cfg[i..] == initial[i..]
  }

  lemma ProgressField(rule: Rule, fields: seq<FieldSpec>, initial: seq<Value>, cfg: seq<Value>, env: map<string, string>, i: nat)
    requires Progress(rule, fields, initial, cfg, env, i) && i < |fields|
    ensures cfg[i] == initial[i]
  {
    assert cfg[i..][0] == initial[i..][0];
  }

  lemma ProgressStep(rule: Rule, fields: seq<FieldSpec>, initial: seq<Value>, cfg: seq<Value>, env: map<string, string>, i: nat)
    requires Progress(rule, fields, initial, cfg, env, i) && i < |fields|
    requires FieldStep(rule, fields[i], initial[i], env).Success?
    ensures Progress(rule, fields, initial, cfg[i := FieldStep(rule, fields[i], initial[i], env).value], env, i + 1)
  {
    var v := FieldStep(rule, fields[i], initial[i], env).value;
    ReadFieldsSnoc(rule, fields, initial, env, i);
    assert cfg[i := v][..i + 1] == cfg[..i] + [v];
    assert cfg[i := v][i + 1..] == cfg[i..][1..];
  }

  lemma ProgressPanics(rule: Rule, fields: seq<FieldSpec>, initial: seq<Value>, cfg: seq<Value>, env: map<string, string>, i: nat)
    requires Progress(rule, fields, initial, cfg, env, i) && i < |fields|
    requires FieldStep(rule, fields[i], initial[i], env).Failure?
    ensures ReadFields(rule, fields, initial, env) == Failure(FieldStep(rule, fields[i], initial[i], env).error)
  {
    ReadFieldsSnoc(rule, fields, initial, env, i);
    ReadFieldsStops(rule, fields, initial, env, i + 1);
  }

  lemma ProgressDone(rule: Rule, fields: seq<FieldSpec>, initial: seq<Value>, cfg: seq<Value>, env: map<string, string>)
    requires Progress(rule, fields, initial, cfg, env, |fields|)
    ensures ReadFields(rule, fields, initial, env) == Success(cfg)
  {
    assert fields[..|fields|] == fields && initial[..|fields|] == initial && cfg[..|fields|] == cfg;
  }
}
