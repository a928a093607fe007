/** The three wrapper types of the `localtime` package (localtime/types.go):
    each holds one `time.Time`, marshals and unmarshals it through the
    helpers of `LocalTimeJson`, renders it as text, and parses text by
    quoting it and handing it to `encoding/json`.

    A Go value of one of these types is a class with the single field
    `time`; `UnmarshalJSON` replaces it in place. The `Parse*` functions
    return the value the new wrapper would hold, or the error. */
module LocalTimeTypes {
  import opened Wrappers
  import opened Text
  import opened LocalTimeJson

  // ---------------------------------------------------------------------
  // What encoding/json accepts before it calls UnmarshalJSON

  predicate IsHexDigit(c: char) {
    ('0' <= c <= '9') || ('a' <= c <= 'f') || ('A' <= c <= 'F')
  }

  /** A character that may stand unescaped inside a JSON string. */
  predicate Plain(c: char) {
    c != '"' && c != '\\' && c as int >= 0x20
  }

  /** The characters between the quotes of a JSON string literal: plain
      characters, two-character escapes and `\uXXXX` escapes. */
  predicate StringBody(s: string)
    decreases |s|
  {
    if |s| == 0 then true
    else if Plain(s[0]) then StringBody(s[1..])
    else if s[0] != '\\' || |s| < 2 then false
    else if s[1] in "\"\\/bfnrt" then StringBody(s[2..])
    else
      s[1] == 'u' && |s| >= 6 && IsHexDigit(s[2]) && IsHexDigit(s[3]) &&
      IsHexDigit(s[4]) && IsHexDigit(s[5]) && StringBody(s[6..])
  }

  /** The whole input is one JSON string literal: what `json.Unmarshal`
      requires of text that starts and ends with `"` before it calls the
      target's `UnmarshalJSON`. */
  predicate IsJSONStringLiteral(data: string) {
    IsJSONString(data) && StringBody(data[1..|data| - 1])
  }

  predicate AllPlain(s: string) {
    forall k :: 0 <= k < |s| ==> Plain(s[k])
  }

  /** Text without quotes, backslashes or control characters is a valid string body. */
  lemma {:induction false} PlainIsStringBody(s: string)
    requires AllPlain(s)
    ensures StringBody(s)
    decreases |s|
  {
    if |s| > 0 {
      PlainIsStringBody(s[1..]);
    }
  }

  lemma AllPlainConcat(a: string, b: string)
    requires AllPlain(a) && AllPlain(b)
    ensures AllPlain(a + b)
  {
    forall k | 0 <= k < |a + b|
      ensures Plain((a + b)[k])
    {
      if k < |a| {
        assert (a + b)[k] == a[k];
      } else {
        assert (a + b)[k] == b[k - |a|];
      }
    }
  }

  lemma DigitsArePlain(s: string)
    requires AllDigits(s)
    ensures AllPlain(s)
  {
    forall k | 0 <= k < |s|
      ensures Plain(s[k])
    {
      assert IsDigit(s[k]);
    }
  }

  lemma Plain3(a: string, sep: string, b: string, c: string)
    requires AllPlain(a) && AllPlain(sep) && AllPlain(b) && AllPlain(c)
    ensures AllPlain(a + sep + b + sep + c)
  {
    AllPlainConcat(a, sep);
    AllPlainConcat(a + sep, b);
    AllPlainConcat(a + sep + b, sep);
    AllPlainConcat(a + sep + b + sep, c);
  }

  lemma YMDPlain(d: CalDate)
    requires ValidDate(d) && 0 <= d.year <= 9999
    ensures AllPlain(FormatYMD(d)) && AllPlain(FormatDMY(d))
  {
    var year, month, day := Four(d.year), Two(d.month), Two(d.day);
    DigitsArePlain(year);
    DigitsArePlain(month);
    DigitsArePlain(day);
    Plain3(year, "-", month, day);
    Plain3(day, ".", month, year);
  }

  lemma HMSPlain(c: Civil)
    requires ValidCivil(c)
    ensures AllPlain(FormatHMS(c))
  {
    DigitsArePlain(Two(c.hour));
    DigitsArePlain(Two(c.minute));
    DigitsArePlain(Two(c.second));
    Plain3(Two(c.hour), ":", Two(c.minute), Two(c.second));
  }

  lemma ZonePlain(offset: int)
    requires ValidOffset(offset)
    ensures AllPlain(ZoneText(offset))
  {
    if offset != 0 {
      var mins := if offset < 0 then -offset else offset;
      var zh, zm := Two(mins / 60), Two(mins % 60);
      DigitsArePlain(zh);
      DigitsArePlain(zm);
      var sign: string := if offset < 0 then "-" else "+";
      AllPlainConcat(sign, zh);
      AllPlainConcat(sign + zh, ":");
      AllPlainConcat(sign + zh + ":", zm);
    }
  }

  /** Every rendering of the three layouts is plain text. */
  lemma RenderingsArePlain(c: Civil, offset: int)
    requires ValidCivil(c) && ValidOffset(offset) && 0 <= c.date.year <= 9999
    ensures AllPlain(FormatRFC3339(c, offset))
    ensures AllPlain(FormatDateOnly(c))
    ensures AllPlain(FormatNorwegian(c))
  {
    YMDPlain(c.date);
    HMSPlain(c);
    ZonePlain(offset);
    AllPlainConcat(FormatYMD(c.date), "T");
    AllPlainConcat(FormatYMD(c.date) + "T", FormatHMS(c));
    AllPlainConcat(FormatYMD(c.date) + "T" + FormatHMS(c), ZoneText(offset));
    AllPlainConcat(FormatDMY(c.date), " ");
    AllPlainConcat(FormatDMY(c.date) + " ", FormatHMS(c));
  }

  /** Quoting a rendering yields a JSON string literal holding exactly it. */
  lemma QuotedRendering(s: string)
    requires |s| >= 1 && AllPlain(s)
    ensures Quote(s) == "\"" + s + "\"" && IsJSONStringLiteral(Quote(s))
    ensures Quote(s)[1..|Quote(s)| - 1] == s && Quote(s) != "null"
  {
    assert Plain(s[0]) && Plain(s[|s| - 1]);
    QuoteFormatted(s);
    PlainIsStringBody(s);
  }

  // ---------------------------------------------------------------------
  // Storing what an Unmarshal* helper returns

  /** What an `UnmarshalJSON` method does with its helper's answer: store
      the time, return the error, or dereference the nil pointer the
      helper returns, with a nil error, for `null`. */
  datatype Store = Assign(time: Time) | Reject(error: TimeError) | NilDereference

  /** The step the three `UnmarshalJSON` methods take: a nil error is
      taken to mean a time was returned, so `null` dereferences a nil
      pointer and panics. The methods of the classes below therefore
      require input other than `null`. */
  function StoreAsWritten(u: Unmarshalled): (r: Store)
    ensures r.NilDereference? <==> u.NoTime?
    ensures u.Parsed? ==> r == Assign(u.time)
    ensures u.Failed? ==> r == Reject(u.error)
  {
    match u
    case NoTime => NilDereference
    case Parsed(t) => Assign(t)
    case Failed(e) => Reject(e)
  }

  /** Unmarshalling `null` into any of the three wrappers panics, and no
      other input does. */
  lemma NullDereferences(data: string, local: int)
    requires ValidOffset(local)
    ensures StoreAsWritten(UnmarshalRFC3339(data, local)).NilDereference? <==> data == "null"
    ensures StoreAsWritten(UnmarshalRFC3339Date(data, local)).NilDereference? <==> data == "null"
    ensures StoreAsWritten(UnmarshalNorwegianDateTime(data, local)).NilDereference? <==> data == "null"
  {
  }

  // ---------------------------------------------------------------------
  // DateTime (types.go:48-78)

  class DateTime {
    var time: Time

    constructor (t: Time)
      ensures time == t
    {
      time := t;
    }

    predicate Valid()
      reads this
    {
      ValidTime(time)
    }

    /** MarshalJSON: the RFC 3339 rendering of the instant in local time. */
    function MarshalJSON(local: int): (r: string)
      reads this
      requires Valid() && ValidOffset(local)
      ensures r == MarshalRFC3339(time, local)
    {
      MarshalRFC3339(time, local)
    }

    /** UnmarshalJSON: on success the wrapper holds the parsed instant (in
        UTC); on failure it is left as it was and the error is returned. */
    method UnmarshalJSON(data: string, local: int) returns (err: Option<TimeError>)
      requires ValidOffset(local) && data != "null"
      modifies this
      ensures UnmarshalRFC3339(data, local).Parsed? ==>
        err == None && time == UnmarshalRFC3339(data, local).time && Valid()
      ensures UnmarshalRFC3339(data, local).Failed? ==>
        err == Some(UnmarshalRFC3339(data, local).error) && time == old(time)
    {
      var outcome := UnmarshalRFC3339(data, local);
      if outcome.Failed? {
        err := Some(outcome.error);
      } else {
        time := outcome.time;
        err := None;
      }
    }

    /** String: the marshalled text without its quotes. */
    function String(local: int): (r: string)
      reads this
      requires Valid() && ValidOffset(local)
    {
      Unquote(MarshalJSON(local))
    }
  }

  /** The text of a DateTime is its local wall clock in RFC 3339. */
  lemma DateTimeString(dt: DateTime, local: int)
    requires dt.Valid() && ValidOffset(local) && 0 <= Shift(dt.time.utc, local).date.year <= 9999
    ensures dt.String(local) == FormatRFC3339(Shift(dt.time.utc, local), local)
  {
    var c := Shift(dt.time.utc, local);
    RenderingsArePlain(c, local);
    var s := FormatRFC3339(c, local);
    assert Plain(s[0]) && Plain(s[|s| - 1]);
    UnquoteQuote(s);
  }

  /** ParseDateTime: the timestamp is quoted unless it already is, checked
      by `encoding/json`, and read by UnmarshalJSON into a zero DateTime. */
  function ParseDateTime(timestamp: string, local: int): (r: Result<Time, TimeError>)
    requires ValidOffset(local)
    ensures !IsJSONStringLiteral(Quote(timestamp)) ==> r == Failure(JSONSyntax)
    ensures r.Success? ==> r.value.zone == UTC && ValidTime(r.value)
    ensures IsJSONStringLiteral(Quote(timestamp)) ==>
      var u := UnmarshalRFC3339(Quote(timestamp), local);
      (u.Parsed? ==> r == Success(u.time)) && (u.Failed? ==> r == Failure(u.error))
  {
    var data := Quote(timestamp);
    if !IsJSONStringLiteral(data) then Failure(JSONSyntax)
    else
      match UnmarshalRFC3339(data, local)
      case Parsed(t) => Success(t)
      case Failed(e) => Failure(e)
      case NoTime => assert false; Failure(JSONSyntax)
  }

  /** Parsing the text of a DateTime gives back its instant, in UTC. */
  lemma {:induction false} DateTimeStringRoundTrip(dt: DateTime, local: int)
    requires dt.Valid() && ValidOffset(local) && 0 <= Shift(dt.time.utc, local).date.year <= 9999
    ensures ParseDateTime(dt.String(local), local) == Success(Time(dt.time.utc, UTC))
  {
    var c := Shift(dt.time.utc, local);
    DateTimeString(dt, local);
    RenderingsArePlain(c, local);
    QuotedRendering(FormatRFC3339(c, local));
    RFC3339RoundTrip(dt.time, local);
  }

  // ---------------------------------------------------------------------
  // Date (types.go:83-113)

  class Date {
    var time: Time

    constructor (t: Time)
      ensures time == t
    {
      time := t;
    }

    predicate Valid()
      reads this
    {
      ValidTime(time)
    }

    /** MarshalJSON: the local calendar date. */
    function MarshalJSON(local: int): (r: string)
      reads this
      requires Valid() && ValidOffset(local)
      ensures r == MarshalRFC3339Date(time, local)
    {
      MarshalRFC3339Date(time, local)
    }

    /** UnmarshalJSON: on success the wrapper holds local midnight of the
        date; on failure it is left as it was. */
    method UnmarshalJSON(data: string, local: int) returns (err: Option<TimeError>)
      requires ValidOffset(local) && data != "null"
      modifies this
      ensures UnmarshalRFC3339Date(data, local).Parsed? ==>
        err == None && time == UnmarshalRFC3339Date(data, local).time && Valid()
      ensures UnmarshalRFC3339Date(data, local).Failed? ==>
        err == Some(UnmarshalRFC3339Date(data, local).error) && time == old(time)
    {
      var outcome := UnmarshalRFC3339Date(data, local);
      if outcome.Failed? {
        err := Some(outcome.error);
      } else {
        time := outcome.time;
        err := None;
      }
    }

    function String(local: int): (r: string)
      reads this
      requires Valid() && ValidOffset(local)
    {
      Unquote(MarshalJSON(local))
    }
  }

  /** The text of a Date is its local date as YYYY-MM-DD. */
  lemma DateString(d: Date, local: int)
    requires d.Valid() && ValidOffset(local) && 0 <= Shift(d.time.utc, local).date.year <= 9999
    ensures d.String(local) == FormatDateOnly(Shift(d.time.utc, local))
  {
    var c := Shift(d.time.utc, local);
    RenderingsArePlain(c, local);
    var s := FormatDateOnly(c);
    assert Plain(s[0]) && Plain(s[|s| - 1]);
    UnquoteQuote(s);
  }

  /** ParseDate: like ParseDateTime, with the date-only reader. */
  function ParseDate(timestamp: string, local: int): (r: Result<Time, TimeError>)
    requires ValidOffset(local)
    ensures !IsJSONStringLiteral(Quote(timestamp)) ==> r == Failure(JSONSyntax)
    ensures r.Success? ==> r.value.zone == Local && ValidTime(r.value)
    ensures IsJSONStringLiteral(Quote(timestamp)) ==>
      var u := UnmarshalRFC3339Date(Quote(timestamp), local);
      (u.Parsed? ==> r == Success(u.time)) && (u.Failed? ==> r == Failure(u.error))
  {
    var data := Quote(timestamp);
    if !IsJSONStringLiteral(data) then Failure(JSONSyntax)
    else
      match UnmarshalRFC3339Date(data, local)
      case Parsed(t) => Success(t)
      case Failed(e) => Failure(e)
      case NoTime => assert false; Failure(JSONSyntax)
  }

  /** Parsing the text of a Date gives local midnight of the same local
      date, which has the same text. */
  lemma {:induction false} DateStringRoundTrip(d: Date, local: int)
    requires d.Valid() && ValidOffset(local) && 0 <= Shift(d.time.utc, local).date.year <= 9999
    ensures
      var day := Shift(d.time.utc, local).date;
      var r := ParseDate(d.String(local), local);
      r == Success(Time(Shift(Civil(day, 0, 0, 0), -local), Local)) &&
      MarshalRFC3339Date(r.value, local) == d.MarshalJSON(local)
  {
    var c := Shift(d.time.utc, local);
    DateString(d, local);
    RenderingsArePlain(c, local);
    QuotedRendering(FormatDateOnly(c));
    DateRoundTrip(d.time, local);
  }

  // ---------------------------------------------------------------------
  // NorwegianDateTime (types.go:118-149)

  class NorwegianDateTime {
    var time: Time

    constructor (t: Time)
      ensures time == t
    {
      time := t;
    }

    predicate Valid()
      reads this
    {
      ValidTime(time)
    }

    /** MarshalJSON: the local wall clock as DD.MM.YYYY hh:mm:ss. */
    function MarshalJSON(local: int): (r: string)
      reads this
      requires Valid() && ValidOffset(local)
      ensures r == MarshalNorwegianDateTime(time, local)
    {
      MarshalNorwegianDateTime(time, local)
    }

    /** UnmarshalJSON: on success the wrapper holds the instant (in UTC);
        on failure it is left as it was. */
    method UnmarshalJSON(data: string, local: int) returns (err: Option<TimeError>)
      requires ValidOffset(local) && data != "null"
      modifies this
      ensures UnmarshalNorwegianDateTime(data, local).Parsed? ==>
        err == None && time == UnmarshalNorwegianDateTime(data, local).time && Valid()
      ensures UnmarshalNorwegianDateTime(data, local).Failed? ==>
        err == Some(UnmarshalNorwegianDateTime(data, local).error) && time == old(time)
    {
      var outcome := UnmarshalNorwegianDateTime(data, local);
      if outcome.Failed? {
        err := Some(outcome.error);
      } else {
        time := outcome.time;
        err := None;
      }
    }

    function String(local: int): (r: string)
      reads this
      requires Valid() && ValidOffset(local)
    {
      Unquote(MarshalJSON(local))
    }
  }

  lemma NorwegianString(n: NorwegianDateTime, local: int)
    requires n.Valid() && ValidOffset(local) && 0 <= Shift(n.time.utc, local).date.year <= 9999
    ensures n.String(local) == FormatNorwegian(Shift(n.time.utc, local))
  {
    var c := Shift(n.time.utc, local);
    RenderingsArePlain(c, local);
    var s := FormatNorwegian(c);
    assert Plain(s[0]) && Plain(s[|s| - 1]);
    UnquoteQuote(s);
  }

  /** ParseNorwegianDateTime: like ParseDateTime, with the Norwegian reader. */
  function ParseNorwegianDateTime(timestamp: string, local: int): (r: Result<Time, TimeError>)
    requires ValidOffset(local)
    ensures !IsJSONStringLiteral(Quote(timestamp)) ==> r == Failure(JSONSyntax)
    ensures r.Success? ==> r.value.zone == UTC && ValidTime(r.value)
    ensures IsJSONStringLiteral(Quote(timestamp)) ==>
      var u := UnmarshalNorwegianDateTime(Quote(timestamp), local);
      (u.Parsed? ==> r == Success(u.time)) && (u.Failed? ==> r == Failure(u.error))
  {
    var data := Quote(timestamp);
    if !IsJSONStringLiteral(data) then Failure(JSONSyntax)
    else
      match UnmarshalNorwegianDateTime(data, local)
      case Parsed(t) => Success(t)
      case Failed(e) => Failure(e)
      case NoTime => assert false; Failure(JSONSyntax)
  }

  lemma {:induction false} NorwegianStringRoundTrip(n: NorwegianDateTime, local: int)
    requires n.Valid() && ValidOffset(local) && 0 <= Shift(n.time.utc, local).date.year <= 9999
    ensures ParseNorwegianDateTime(n.String(local), local) == Success(Time(n.time.utc, UTC))
  {
    var c := Shift(n.time.utc, local);
    NorwegianString(n, local);
    RenderingsArePlain(c, local);
    QuotedRendering(FormatNorwegian(c));
    NorwegianRoundTrip(n.time, local);
  }
}
