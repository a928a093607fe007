/** The three fixed-layout time codecs of the `localtime` package and the
    quote helpers that wrap them as JSON strings.

    An instant is represented by its wall-clock reading in UTC, together
    with the zone Go's `time.Time` carries (UTC or the process-wide local
    zone). The local zone is a fixed offset east of UTC, in whole minutes,
    passed as a parameter wherever Go consults `time.Local`. */
module LocalTimeJson {
  import opened Wrappers
  import opened Text

  // ---------------------------------------------------------------------
  // Calendar

  datatype CalDate = CalDate(year: int, month: int, day: int)
  datatype Civil = Civil(date: CalDate, hour: int, minute: int, second: int)
  datatype Zone = UTC | Local
  /** A Go `time.Time`: the instant (as its UTC wall clock) and its location. */
  datatype Time = Time(utc: Civil, zone: Zone)

  /** Go's `isLeap` (proleptic Gregorian calendar). */
  predicate IsLeap(year: int) {
    year % 4 == 0 && (year % 100 != 0 || year % 400 == 0)
  }

  /** Go's `daysIn`. */
  function DaysIn(month: int, year: int): (n: int)
    requires 1 <= month <= 12
    ensures 28 <= n <= 31
    ensures month == 2 ==> (n == 29 <==> IsLeap(year))
  {
    if month == 2 then (if IsLeap(year) then 29 else 28)
    else if month == 4 || month == 6 || month == 9 || month == 11 then 30
    else 31
  }

  predicate ValidDate(d: CalDate) {
    1 <= d.month <= 12 && 1 <= d.day <= DaysIn(d.month, d.year)
  }

  predicate ValidCivil(c: Civil) {
    ValidDate(c.date) && 0 <= c.hour < 24 && 0 <= c.minute < 60 && 0 <= c.second < 60
  }

  predicate ValidTime(t: Time) {
    ValidCivil(t.utc)
  }

  /** A zone offset in minutes that stays within one day either way. */
  predicate ValidOffset(offset: int) {
    -1440 < offset < 1440
  }

  function NextDay(d: CalDate): (r: CalDate)
    requires ValidDate(d)
    ensures ValidDate(r)
  {
    if d.day < DaysIn(d.month, d.year) then CalDate(d.year, d.month, d.day + 1)
    else if d.month < 12 then CalDate(d.year, d.month + 1, 1)
    else CalDate(d.year + 1, 1, 1)
  }

  function PrevDay(d: CalDate): (r: CalDate)
    requires ValidDate(d)
    ensures ValidDate(r)
  {
    if d.day > 1 then CalDate(d.year, d.month, d.day - 1)
    else if d.month > 1 then CalDate(d.year, d.month - 1, DaysIn(d.month - 1, d.year))
    else CalDate(d.year - 1, 12, 31)
  }

  /** Stepping a day forward and back (or back and forward) returns to the same date. */
  lemma DayStepsInverse(d: CalDate)
    requires ValidDate(d)
    ensures PrevDay(NextDay(d)) == d && NextDay(PrevDay(d)) == d
  {
  }

  /** The wall clock of the same instant seen from a zone `offset` minutes
      further east: Go's `In`/`Local` conversions for a fixed-offset zone. */
  function Shift(c: Civil, offset: int): (r: Civil)
    requires ValidCivil(c) && ValidOffset(offset)
    ensures ValidCivil(r) && r.second == c.second
  {
    var total := c.hour * 60 + c.minute + offset;
    var minutes := total % 1440;
    var date :=
      if total >= 1440 then NextDay(c.date)
      else if total < 0 then PrevDay(c.date)
      else c.date;
    Civil(date, minutes / 60, minutes % 60, c.second)
  }

  /** Converting to a zone and back gives the original wall clock. */
  lemma ShiftInverse(c: Civil, offset: int)
    requires ValidCivil(c) && ValidOffset(offset)
    ensures Shift(Shift(c, offset), -offset) == c
  {
    DayStepsInverse(c.date);
    var clock := c.hour * 60 + c.minute;
    var total := clock + offset;
    var back := Shift(c, offset);
    assert back.hour * 60 + back.minute == total % 1440;
    if total >= 1440 {
      assert total % 1440 == total - 1440;
      assert (clock - 1440) % 1440 == clock;
    } else if total < 0 {
      assert total % 1440 == total + 1440;
      assert (clock + 1440) % 1440 == clock;
    } else {
      assert total % 1440 == total;
    }
    assert clock / 60 == c.hour && clock % 60 == c.minute;
  }

  // ---------------------------------------------------------------------
  // Rendering fields (Go's time-package appendInt)

  function Two(n: int): (r: string)
    requires 0 <= n < 100
    ensures |r| == 2 && AllDigits(r) && DigitsValue(r) == n
  {
    var a, b := DigitChar(n / 10), DigitChar(n % 10);
    DigitsAppend([], a);
    DigitsAppend([a], b);
    [a] + [b]
  }

  function Four(n: int): (r: string)
    requires 0 <= n < 10000
    ensures |r| == 4 && AllDigits(r) && DigitsValue(r) == n
  {
    var high, low := Two(n / 100), Two(n % 100);
    DigitsAppend(high, low[0]);
    DigitsAppend(high + [low[0]], low[1]);
    assert high + low == high + [low[0]] + [low[1]];
    high + low
  }

  function ZeroPad(s: string, width: nat): (r: string)
    ensures |r| >= width
    decreases width - |s|
  {
    if |s| >= width then s else ZeroPad("0" + s, width)
  }

  /** Go's `appendInt(b, x, width)`: a minus sign for negative values, then
      the magnitude zero-padded to `width` digits (more digits if needed). */
  function PadInt(x: int, width: nat): string {
    var u := if x < 0 then -x else x;
    (if x < 0 then "-" else "") +
    (if width == 2 && u < 100 then Two(u)
     else if width == 4 && u < 10000 then Four(u)
     else ZeroPad(Decimal(u), width))
  }

  /** The `Z07:00` element: `Z` at offset zero, otherwise a sign and hh:mm. */
  function ZoneText(offset: int): string
    requires ValidOffset(offset)
  {
    if offset == 0 then "Z"
    else
      var m := if offset < 0 then -offset else offset;
      (if offset < 0 then "-" else "+") + PadInt(m / 60, 2) + ":" + PadInt(m % 60, 2)
  }

  function FormatYMD(d: CalDate): string {
    PadInt(d.year, 4) + "-" + PadInt(d.month, 2) + "-" + PadInt(d.day, 2)
  }

  function FormatDMY(d: CalDate): string {
    PadInt(d.day, 2) + "." + PadInt(d.month, 2) + "." + PadInt(d.year, 4)
  }

  function FormatHMS(c: Civil): string {
    PadInt(c.hour, 2) + ":" + PadInt(c.minute, 2) + ":" + PadInt(c.second, 2)
  }

  /** Layout `time.RFC3339`, "2006-01-02T15:04:05Z07:00". */
  function FormatRFC3339(c: Civil, offset: int): string
    requires ValidOffset(offset)
  {
    FormatYMD(c.date) + "T" + FormatHMS(c) + ZoneText(offset)
  }

  /** Layout `time.DateOnly`, "2006-01-02". */
  function FormatDateOnly(c: Civil): string {
    FormatYMD(c.date)
  }

  /** Layout "02.01.2006 15:04:05". */
  function FormatNorwegian(c: Civil): string {
    FormatDMY(c.date) + " " + FormatHMS(c)
  }

  // ---------------------------------------------------------------------
  // Parsing fields

  /** A fixed-width numeric field: all digits and within [lo, hi]. */
  function Field(s: string, lo: int, hi: int): (r: Option<int>)
    ensures r.Some? ==> lo <= r.value <= hi
  {
    if AllDigits(s) && lo <= DigitsValue(s) <= hi then Some(DigitsValue(s)) else None
  }

  /** "YYYY-MM-DD" with month 01-12 and day within the month. */
  function ParseYMD(s: string): (r: Option<CalDate>)
    ensures r.Some? ==> ValidDate(r.value) && 0 <= r.value.year <= 9999
  {
    if |s| != 10 || s[4] != '-' || s[7] != '-' then None
    else
      var y := Field(s[..4], 0, 9999);
      var m := Field(s[5..7], 1, 12);
      if y.None? || m.None? then None
      else
        var d := Field(s[8..], 1, DaysIn(m.value, y.value));
        if d.None? then None else Some(CalDate(y.value, m.value, d.value))
  }

  /** "DD.MM.YYYY" with month 01-12 and day within the month. */
  function ParseDMY(s: string): (r: Option<CalDate>)
    ensures r.Some? ==> ValidDate(r.value) && 0 <= r.value.year <= 9999
  {
    if |s| != 10 || s[2] != '.' || s[5] != '.' then None
    else
      var y := Field(s[6..], 0, 9999);
      var m := Field(s[3..5], 1, 12);
      if y.None? || m.None? then None
      else
        var d := Field(s[..2], 1, DaysIn(m.value, y.value));
        if d.None? then None else Some(CalDate(y.value, m.value, d.value))
  }

  /** "hh:mm:ss" with hour 00-23, minute and second 00-59, as (h, m, s). */
  function ParseHMS(s: string): (r: Option<(int, int, int)>)
    ensures r.Some? ==> 0 <= r.value.0 < 24 && 0 <= r.value.1 < 60 && 0 <= r.value.2 < 60
  {
    if |s| != 8 || s[2] != ':' || s[5] != ':' then None
    else
      var h := Field(s[..2], 0, 23);
      var m := Field(s[3..5], 0, 59);
      var sec := Field(s[6..], 0, 59);
      if h.None? || m.None? || sec.None? then None else Some((h.value, m.value, sec.value))
  }

  /** "Z" or "+hh:mm" / "-hh:mm" with hh 00-23 and mm 00-59, as minutes east. */
  function ParseZone(z: string): (r: Option<int>)
    ensures r.Some? ==> ValidOffset(r.value)
  {
    if z == "Z" then Some(0)
    else if |z| != 6 || (z[0] != '+' && z[0] != '-') || z[3] != ':' then None
    else
      var h := Field(z[1..3], 0, 23);
      var m := Field(z[4..], 0, 59);
      if h.None? || m.None? then None
      else if z[0] == '-' then Some(-(h.value * 60 + m.value))
      else Some(h.value * 60 + m.value)
  }

  /** `time.ParseInLocation(time.RFC3339, s, loc)`: the wall clock as written and its offset. */
  function ParseRFC3339(s: string): (r: Option<(Civil, int)>)
    ensures r.Some? ==> ValidCivil(r.value.0) && ValidOffset(r.value.1) && 0 <= r.value.0.date.year <= 9999
  {
    if |s| < 19 || s[10] != 'T' then None
    else
      var d := ParseYMD(s[..10]);
      var t := ParseHMS(s[11..19]);
      var z := ParseZone(s[19..]);
      if d.None? || t.None? || z.None? then None
      else Some((Civil(d.value, t.value.0, t.value.1, t.value.2), z.value))
  }

  /** `time.ParseInLocation("2006-01-02T15:04:05", s, loc)`: a zone-less wall clock. */
  function ParseZoneless(s: string): (r: Option<Civil>)
    ensures r.Some? ==> ValidCivil(r.value)
  {
    if |s| != 19 || s[10] != 'T' then None
    else
      var d := ParseYMD(s[..10]);
      var t := ParseHMS(s[11..]);
      if d.None? || t.None? then None
      else Some(Civil(d.value, t.value.0, t.value.1, t.value.2))
  }

  /** `time.ParseInLocation("02.01.2006 15:04:05", s, loc)`. */
  function ParseNorwegian(s: string): (r: Option<Civil>)
    ensures r.Some? ==> ValidCivil(r.value)
  {
    if |s| != 19 || s[10] != ' ' then None
    else
      var d := ParseDMY(s[..10]);
      var t := ParseHMS(s[11..]);
      if d.None? || t.None? then None
      else Some(Civil(d.value, t.value.0, t.value.1, t.value.2))
  }

  // ---------------------------------------------------------------------
  // Each layout reads back what it writes

  /** Three fields joined by one-character separators sit at fixed positions. */
  lemma Fields3(a: string, p: string, b: string, q: string, c: string)
    requires |p| == 1 && |q| == 1
    ensures var s := a + p + b + q + c;
      |s| == |a| + |b| + |c| + 2 &&
      s[..|a|] == a && s[|a|] == p[0] && s[|a| + 1..|a| + 1 + |b|] == b &&
      s[|a| + 1 + |b|] == q[0] && s[|a| + |b| + 2..] == c
  {
    var s := a + p + b + q + c;
    assert s[..|a|] == a;
    assert s[|a| + 1..|a| + 1 + |b|] == b;
    assert s[|a| + |b| + 2..] == c;
  }

  /** Two fields joined by a one-character separator. */
  lemma Fields2(a: string, p: string, b: string)
    requires |p| == 1
    ensures var s := a + p + b;
      |s| == |a| + |b| + 1 && s[..|a|] == a && s[|a|] == p[0] && s[|a| + 1..] == b
  {
    var s := a + p + b;
    assert s[..|a|] == a;
    assert s[|a| + 1..] == b;
  }

  lemma {:induction false} YMDRoundTrip(d: CalDate)
    requires ValidDate(d) && 0 <= d.year <= 9999
    ensures |FormatYMD(d)| == 10 && ParseYMD(FormatYMD(d)) == Some(d)
  {
    var y, m, dd := Four(d.year), Two(d.month), Two(d.day);
    assert FormatYMD(d) == y + "-" + m + "-" + dd;
    Fields3(y, "-", m, "-", dd);
  }

  lemma {:induction false} DMYRoundTrip(d: CalDate)
    requires ValidDate(d) && 0 <= d.year <= 9999
    ensures |FormatDMY(d)| == 10 && ParseDMY(FormatDMY(d)) == Some(d)
  {
    var dd, m, y := Two(d.day), Two(d.month), Four(d.year);
    assert FormatDMY(d) == dd + "." + m + "." + y;
    Fields3(dd, ".", m, ".", y);
  }

  lemma {:induction false} HMSRoundTrip(c: Civil)
    requires ValidCivil(c)
    ensures |FormatHMS(c)| == 8 && ParseHMS(FormatHMS(c)) == Some((c.hour, c.minute, c.second))
  {
    var h, m, sec := Two(c.hour), Two(c.minute), Two(c.second);
    assert FormatHMS(c) == h + ":" + m + ":" + sec;
    Fields3(h, ":", m, ":", sec);
  }

  lemma {:induction false} ZoneRoundTrip(offset: int)
    requires ValidOffset(offset)
    ensures ParseZone(ZoneText(offset)) == Some(offset)
  {
    if offset != 0 {
      var m := if offset < 0 then -offset else offset;
      var sign, hh, mm := if offset < 0 then "-" else "+", Two(m / 60), Two(m % 60);
      assert ZoneText(offset) == [] + sign + hh + ":" + mm;
      Fields3([], sign, hh, ":", mm);
    }
  }

  /** Parsing the RFC 3339 rendering of a wall clock and offset gives them back. */
  lemma {:induction false} RFC3339TextRoundTrip(c: Civil, offset: int)
    requires ValidCivil(c) && ValidOffset(offset) && 0 <= c.date.year <= 9999
    ensures ParseRFC3339(FormatRFC3339(c, offset)) == Some((c, offset))
  {
    YMDRoundTrip(c.date);
    HMSRoundTrip(c);
    ZoneRoundTrip(offset);
    var date, clock, zone := FormatYMD(c.date), FormatHMS(c), ZoneText(offset);
    assert |date| == 10 && |clock| == 8;
    RFC3339Pieces(date, clock, zone);
  }

  /** The pieces of an RFC 3339 text sit at fixed positions. */
  lemma RFC3339Pieces(date: string, clock: string, zone: string)
    requires |date| == 10 && |clock| == 8
    ensures var s := date + "T" + clock + zone;
      |s| >= 19 && s[10] == 'T' && s[..10] == date && s[11..19] == clock && s[19..] == zone
  {
    var s := date + "T" + clock + zone;
    assert s[..10] == date;
    assert s[11..19] == clock;
    assert s[19..] == zone;
  }

  /** The zone-less layout reads back a wall clock written without a zone,
      which the full RFC 3339 layout refuses. */
  lemma {:induction false} ZonelessTextRoundTrip(c: Civil)
    requires ValidCivil(c) && 0 <= c.date.year <= 9999
    ensures ParseRFC3339(FormatYMD(c.date) + "T" + FormatHMS(c)) == None
    ensures ParseZoneless(FormatYMD(c.date) + "T" + FormatHMS(c)) == Some(c)
  {
    YMDRoundTrip(c.date);
    HMSRoundTrip(c);
    var date, clock := FormatYMD(c.date), FormatHMS(c);
    RFC3339Pieces(date, clock, []);
    assert date + "T" + clock + [] == date + "T" + clock;
  }

  lemma {:induction false} NorwegianTextRoundTrip(c: Civil)
    requires ValidCivil(c) && 0 <= c.date.year <= 9999
    ensures ParseNorwegian(FormatNorwegian(c)) == Some(c)
  {
    DMYRoundTrip(c.date);
    HMSRoundTrip(c);
    var date, clock := FormatDMY(c.date), FormatHMS(c);
    Fields2(date, " ", clock);
  }

  // ---------------------------------------------------------------------
  // JSON quoting (json.go:77-103)

  /** quoteJSONString: adds a leading and a trailing `"` where missing; the
      empty input stays empty. */
  function Quote(s: string): (r: string)
    ensures s == [] ==> r == []
    ensures s != [] ==> |r| >= 1 && r[0] == '"' && r[|r| - 1] == '"'
    ensures s != [] && s[0] != '"' && s[|s| - 1] != '"' ==> r == "\"" + s + "\""
    ensures s != [] && s[0] == '"' && s[|s| - 1] != '"' ==> r == s + "\""
    ensures s != [] && s[0] != '"' && s[|s| - 1] == '"' ==> r == "\"" + s
    ensures s != [] && s[0] == '"' && s[|s| - 1] == '"' ==> r == s
  {
    if |s| == 0 then []
    else
      var t := if s[0] != '"' then "\"" + s else s;
      if t[|t| - 1] != '"' then t + "\"" else t
  }

  /** unquoteJSONString: inputs shorter than two are returned as they are;
      otherwise at most one leading and one trailing `"` are removed. */
  function Unquote(data: string): (r: string)
    ensures |data| < 2 ==> r == data
    ensures |data| >= 2 && data[0] == '"' && data[|data| - 1] == '"' ==> r == data[1..|data| - 1]
    ensures |data| >= 2 && data[0] == '"' && data[|data| - 1] != '"' ==> r == data[1..]
    ensures |data| >= 2 && data[0] != '"' && data[|data| - 1] == '"' ==> r == data[..|data| - 1]
    ensures |data| >= 2 && data[0] != '"' && data[|data| - 1] != '"' ==> r == data
  {
    if |data| < 2 then data
    else
      var t := if data[0] == '"' then data[1..] else data;
      if t[|t| - 1] == '"' then t[..|t| - 1] else t
  }

  /** Quoting an already quoted value changes nothing. */
  lemma QuoteIdempotent(s: string)
    ensures Quote(Quote(s)) == Quote(s)
  {
  }

  /** Unquoting undoes quoting for a value that carries no quote of its own at either end. */
  lemma UnquoteQuote(s: string)
    requires s != [] && s[0] != '"' && s[|s| - 1] != '"'
    ensures Unquote(Quote(s)) == s
  {
    assert ("\"" + s + "\"")[1..|s| + 1] == s;
  }

  // ---------------------------------------------------------------------
  // Marshal / Unmarshal (json.go:8-75)

  const LayoutRFC3339: string := "2006-01-02T15:04:05Z07:00"
  const LayoutZoneless: string := "2006-01-02T15:04:05"
  const LayoutDateOnly: string := "2006-01-02"
  const LayoutNorwegian: string := "02.01.2006 15:04:05"
  const NotJSONStringMessage: string := "Time.UnmarshalJSON: input is not a JSON string"

  datatype TimeError =
    | NotJSONString                        // the fixed message above
    | Mismatch(layout: string, value: string)  // a time.ParseError
    | Joined(first: TimeError, second: TimeError)  // errors.Join
    | JSONSyntax                           // encoding/json rejected the text

  /** The `(*time.Time, error)` pair an Unmarshal helper returns. */
  datatype Unmarshalled = NoTime | Parsed(time: Time) | Failed(error: TimeError)

  /** The guard all three helpers share: at least two bytes, a `"` at both ends. */
  predicate IsJSONString(data: string) {
    |data| >= 2 && data[0] == '"' && data[|data| - 1] == '"'
  }

  /** MarshalRFC3339: the instant in local time, RFC 3339, in quotes. */
  function MarshalRFC3339(t: Time, local: int): string
    requires ValidTime(t) && ValidOffset(local)
  {
    Quote(FormatRFC3339(Shift(t.utc, local), local))
  }

  /** MarshalRFC3339Date: the local calendar date, in quotes. */
  function MarshalRFC3339Date(t: Time, local: int): string
    requires ValidTime(t) && ValidOffset(local)
  {
    Quote(FormatDateOnly(Shift(t.utc, local)))
  }

  /** MarshalNorwegianDateTime: the local wall clock as DD.MM.YYYY hh:mm:ss, in quotes. */
  function MarshalNorwegianDateTime(t: Time, local: int): string
    requires ValidTime(t) && ValidOffset(local)
  {
    Quote(FormatNorwegian(Shift(t.utc, local)))
  }

  /** UnmarshalRFC3339: `null` gives no time and no error; a value that is
      not a JSON string is refused; the text is read as full RFC 3339, and
      failing that as a zone-less local wall clock; the result is in UTC. */
  function UnmarshalRFC3339(data: string, local: int): (r: Unmarshalled)
    requires ValidOffset(local)
    ensures data == "null" ==> r == NoTime
    ensures data != "null" && !IsJSONString(data) ==> r == Failed(NotJSONString)
    ensures r.Parsed? ==> r.time.zone == UTC && ValidTime(r.time)
    ensures data != "null" && IsJSONString(data) ==>
      var s := data[1..|data| - 1];
      match ParseRFC3339(s)
      case Some((c, offset)) => r == Parsed(Time(Shift(c, -offset), UTC))
      case None =>
        match ParseZoneless(s)
        case Some(c) => r == Parsed(Time(Shift(c, -local), UTC))
        case None => r == Failed(Joined(Mismatch(LayoutRFC3339, s), Mismatch(LayoutZoneless, s)))
  {
    if data == "null" then NoTime
    else if !IsJSONString(data) then Failed(NotJSONString)
    else
      var s := data[1..|data| - 1];
      match ParseRFC3339(s)
      case Some((c, offset)) => Parsed(Time(Shift(c, -offset), UTC))
      case None =>
        match ParseZoneless(s)
        case Some(c) => Parsed(Time(Shift(c, -local), UTC))
        case None => Failed(Joined(Mismatch(LayoutRFC3339, s), Mismatch(LayoutZoneless, s)))
  }

  /** UnmarshalRFC3339Date: a date read as local midnight and kept in the local zone. */
  function UnmarshalRFC3339Date(data: string, local: int): (r: Unmarshalled)
    requires ValidOffset(local)
    ensures data == "null" ==> r == NoTime
    ensures data != "null" && !IsJSONString(data) ==> r == Failed(NotJSONString)
    ensures r.Parsed? ==> r.time.zone == Local && ValidTime(r.time)
    ensures data != "null" && IsJSONString(data) ==>
      (r.Parsed? <==> ParseYMD(data[1..|data| - 1]).Some?)
    ensures r.Parsed? ==>
      IsJSONString(data) && Shift(r.time.utc, local) == Civil(ParseYMD(data[1..|data| - 1]).value, 0, 0, 0)
  {
    if data == "null" then NoTime
    else if !IsJSONString(data) then Failed(NotJSONString)
    else
      var s := data[1..|data| - 1];
      match ParseYMD(s)
      case Some(d) =>
        var midnight := Civil(d, 0, 0, 0);
        ShiftInverse(midnight, -local);
        Parsed(Time(Shift(midnight, -local), Local))
      case None => Failed(Mismatch(LayoutDateOnly, s))
  }

  /** UnmarshalNorwegianDateTime: a local wall clock, returned in UTC. */
  function UnmarshalNorwegianDateTime(data: string, local: int): (r: Unmarshalled)
    requires ValidOffset(local)
    ensures data == "null" ==> r == NoTime
    ensures data != "null" && !IsJSONString(data) ==> r == Failed(NotJSONString)
    ensures r.Parsed? ==> r.time.zone == UTC && ValidTime(r.time)
    ensures r.Parsed? ==>
      IsJSONString(data) && ParseNorwegian(data[1..|data| - 1]).Some? &&
      Shift(r.time.utc, local) == ParseNorwegian(data[1..|data| - 1]).value
    ensures data != "null" && IsJSONString(data) ==>
      (r.Parsed? <==> ParseNorwegian(data[1..|data| - 1]).Some?)
  {
    if data == "null" then NoTime
    else if !IsJSONString(data) then Failed(NotJSONString)
    else
      var s := data[1..|data| - 1];
      match ParseNorwegian(s)
      case Some(c) =>
        ShiftInverse(c, -local);
        Parsed(Time(Shift(c, -local), UTC))
      case None => Failed(Mismatch(LayoutNorwegian, s))
  }

  // ---------------------------------------------------------------------
  // Round trips

  /** A rendering never starts or ends with a quote, so quoting wraps it whole. */
  lemma QuoteFormatted(s: string)
    requires |s| >= 1 && s[0] != '"' && s[|s| - 1] != '"'
    ensures Quote(s) == "\"" + s + "\"" && IsJSONString(Quote(s))
    ensures Quote(s)[1..|Quote(s)| - 1] == s && Quote(s) != "null"
  {
    assert ("\"" + s + "\"")[1..|s| + 1] == s;
  }

  /** The instant marshalled as RFC 3339 unmarshals to the same instant, in
      UTC, whenever its local year has four digits. */
  lemma {:induction false} RFC3339RoundTrip(t: Time, local: int)
    requires ValidTime(t) && ValidOffset(local)
    requires 0 <= Shift(t.utc, local).date.year <= 9999
    ensures UnmarshalRFC3339(MarshalRFC3339(t, local), local) == Parsed(Time(t.utc, UTC))
  {
    var c := Shift(t.utc, local);
    var s := FormatRFC3339(c, local);
    RFC3339Unquoted(c, local);
    QuoteFormatted(s);
    var data := MarshalRFC3339(t, local);
    assert data == Quote(s);
    assert IsJSONString(data) && data != "null" && data[1..|data| - 1] == s;
    RFC3339TextRoundTrip(c, local);
    UnmarshalZoned(data, local, c, local);
    ShiftInverse(t.utc, local);
  }

  /** A quoted text with a zone unmarshals to its wall clock moved to UTC. */
  lemma UnmarshalZoned(data: string, local: int, c: Civil, offset: int)
    requires ValidOffset(local) && data != "null" && IsJSONString(data)
    requires ParseRFC3339(data[1..|data| - 1]) == Some((c, offset))
    ensures ValidCivil(c) && ValidOffset(offset)
    ensures UnmarshalRFC3339(data, local) == Parsed(Time(Shift(c, -offset), UTC))
  {
  }

  /** An RFC 3339 rendering starts with a digit and ends with `Z` or a
      digit, never with a quote. */
  lemma RFC3339Unquoted(c: Civil, offset: int)
    requires ValidCivil(c) && ValidOffset(offset) && 0 <= c.date.year <= 9999
    ensures var s := FormatRFC3339(c, offset); |s| >= 1 && s[0] != '"' && s[|s| - 1] != '"'
  {
    var s := FormatRFC3339(c, offset);
    assert s[0] == Four(c.date.year)[0];
    assert s[|s| - 1] == ZoneText(offset)[|ZoneText(offset)| - 1];
  }

  /** A Norwegian rendering reads back as the same instant, in UTC. */
  lemma {:induction false} NorwegianRoundTrip(t: Time, local: int)
    requires ValidTime(t) && ValidOffset(local)
    requires 0 <= Shift(t.utc, local).date.year <= 9999
    ensures UnmarshalNorwegianDateTime(MarshalNorwegianDateTime(t, local), local) == Parsed(Time(t.utc, UTC))
  {
    var c := Shift(t.utc, local);
    var s := FormatNorwegian(c);
    assert s[0] == Two(c.date.day)[0];
    assert s[|s| - 1] == Two(c.second)[1];
    QuoteFormatted(s);
    NorwegianTextRoundTrip(c);
    ShiftInverse(t.utc, local);
  }

  /** A date rendering reads back as local midnight of the same local date,
      which renders to the same text again. */
  lemma {:induction false} DateRoundTrip(t: Time, local: int)
    requires ValidTime(t) && ValidOffset(local)
    requires 0 <= Shift(t.utc, local).date.year <= 9999
    ensures
      var d := Shift(t.utc, local).date;
      var r := UnmarshalRFC3339Date(MarshalRFC3339Date(t, local), local);
      r == Parsed(Time(Shift(Civil(d, 0, 0, 0), -local), Local)) &&
      MarshalRFC3339Date(r.time, local) == MarshalRFC3339Date(t, local)
  {
    var c := Shift(t.utc, local);
    var s := FormatDateOnly(c);
    YMDRoundTrip(c.date);
    assert s[0] == Four(c.date.year)[0];
    assert s[|s| - 1] == Two(c.date.day)[1];
    QuoteFormatted(s);
    ShiftInverse(Civil(c.date, 0, 0, 0), -local);
  }

  /** A timestamp written at the local offset unmarshals and marshals back
      to the same text. */
  lemma {:induction false} RFC3339TextStable(c: Civil, local: int)
    requires ValidCivil(c) && ValidOffset(local) && 0 <= c.date.year <= 9999
    ensures var data := Quote(FormatRFC3339(c, local));
      var u := UnmarshalRFC3339(data, local);
      u.Parsed? && MarshalRFC3339(u.time, local) == data
  {
    var t := Time(Shift(c, -local), UTC);
    ShiftInverse(c, -local);
    var back := Shift(t.utc, local);
    assert back == c;
    assert MarshalRFC3339(t, local) == Quote(FormatRFC3339(back, local));
    RFC3339RoundTrip(t, local);
  }

  /** A Norwegian timestamp unmarshals and marshals back to the same text. */
  lemma {:induction false} NorwegianTextStable(c: Civil, local: int)
    requires ValidCivil(c) && ValidOffset(local) && 0 <= c.date.year <= 9999
    ensures var data := Quote(FormatNorwegian(c));
      var u := UnmarshalNorwegianDateTime(data, local);
      u.Parsed? && MarshalNorwegianDateTime(u.time, local) == data
  {
    var t := Time(Shift(c, -local), UTC);
    ShiftInverse(c, -local);
    var back := Shift(t.utc, local);
    assert back == c;
    assert MarshalNorwegianDateTime(t, local) == Quote(FormatNorwegian(back));
    NorwegianRoundTrip(t, local);
  }

  /** A date unmarshals and marshals back to the same text. */
  lemma {:induction false} DateTextStable(d: CalDate, local: int)
    requires ValidDate(d) && ValidOffset(local) && 0 <= d.year <= 9999
    ensures var data := Quote(FormatYMD(d));
      var u := UnmarshalRFC3339Date(data, local);
      u.Parsed? && MarshalRFC3339Date(u.time, local) == data
  {
    var midnight := Civil(d, 0, 0, 0);
    var t := Time(Shift(midnight, -local), Local);
    ShiftInverse(midnight, -local);
    var back := Shift(t.utc, local);
    assert back == midnight;
    assert MarshalRFC3339Date(t, local) == Quote(FormatDateOnly(back));
    DateRoundTrip(t, local);
  }
}
