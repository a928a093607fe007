/** The behaviour localtime/types_test.go describes, for Oslo in winter
    (UTC+01:00), stated about the model. */
module LocalTimeExamples {
  import opened Wrappers
  import opened Text
  import opened LocalTimeJson
  import opened LocalTimeTypes

  const Oslo: int := 60

  lemma ExampleDate()
    ensures FormatYMD(CalDate(2020, 2, 1)) == "2020-02-01"
  {
  }

  lemma ExampleClock(h: int)
    requires 10 <= h < 24
    ensures FormatHMS(Civil(CalDate(2020, 2, 1), h, 34, 56)) == Two(h) + ":34:56"
  {
  }

  lemma ExampleZone()
    ensures ZoneText(120) == "+02:00"
  {
  }

  lemma ExampleZonedText()
    ensures FormatRFC3339(Civil(CalDate(2020, 2, 1), 13, 34, 56), 120) == "2020-02-01T13:34:56+02:00"
  {
    var c := Civil(CalDate(2020, 2, 1), 13, 34, 56);
    ExampleDate();
    ExampleClock(13);
    assert Two(13) == "13";
    ExampleZone();
    assert FormatRFC3339(c, 120) == "2020-02-01" + "T" + "13:34:56" + "+02:00";
    ZonedPieces();
  }

  lemma ZonedPieces()
    ensures "2020-02-01" + "T" + "13:34:56" + "+02:00" == "2020-02-01T13:34:56+02:00"
  {
  }

  lemma ExampleZonelessText()
    ensures
      var c := Civil(CalDate(2020, 2, 1), 12, 34, 56);
      FormatYMD(c.date) + "T" + FormatHMS(c) == "2020-02-01T12:34:56"
  {
    ExampleDate();
    ExampleClock(12);
    assert Two(12) == "12";
  }

  /** The wall clocks of the examples, moved to UTC. */
  lemma ShiftExamples()
    ensures Shift(Civil(CalDate(2020, 2, 1), 13, 34, 56), -120) == Civil(CalDate(2020, 2, 1), 11, 34, 56)
    ensures Shift(Civil(CalDate(2020, 2, 1), 12, 34, 56), -Oslo) == Civil(CalDate(2020, 2, 1), 11, 34, 56)
  {
  }

  /** A zoned timestamp is converted to UTC. */
  lemma ParseZonedExample(text: string)
    requires text == "2020-02-01T13:34:56+02:00"
    ensures ParseDateTime(text, Oslo) == Success(Time(Civil(CalDate(2020, 2, 1), 11, 34, 56), UTC))
  {
    var c := Civil(CalDate(2020, 2, 1), 13, 34, 56);
    ExampleZonedText();
    RFC3339TextRoundTrip(c, 120);
    assert ParseRFC3339(text) == Some((c, 120));
    RenderingsArePlain(c, 120);
    QuotedRendering(text);
    var data := Quote(text);
    assert IsJSONStringLiteral(data) && data != "null" && data[1..|data| - 1] == text;
    ShiftExamples();
    assert UnmarshalRFC3339(data, Oslo) == Parsed(Time(Shift(c, -120), UTC));
  }

  /** A zone-less timestamp is read as local time and converted to UTC. */
  lemma ParseZonelessExample(text: string)
    requires text == "2020-02-01T12:34:56"
    ensures ParseDateTime(text, Oslo) == Success(Time(Civil(CalDate(2020, 2, 1), 11, 34, 56), UTC))
  {
    var c := Civil(CalDate(2020, 2, 1), 12, 34, 56);
    ExampleZonelessText();
    ZonelessTextRoundTrip(c);
    var date, clock := FormatYMD(c.date), FormatHMS(c);
    YMDPlain(c.date);
    HMSPlain(c);
    AllPlainConcat(date, "T");
    AllPlainConcat(date + "T", clock);
    QuotedRendering(text);
    var data := Quote(text);
    assert IsJSONStringLiteral(data) && data != "null" && data[1..|data| - 1] == text;
    ShiftExamples();
    assert UnmarshalRFC3339(data, Oslo) == Parsed(Time(Shift(c, -Oslo), UTC));
  }

  /** An empty timestamp is not JSON at all. */
  lemma ParseEmptyIsSyntaxError(local: int)
    requires ValidOffset(local)
    ensures ParseDateTime("", local) == Failure(JSONSyntax)
    ensures ParseDate("", local) == Failure(JSONSyntax)
    ensures ParseNorwegianDateTime("", local) == Failure(JSONSyntax)
  {
  }
}
