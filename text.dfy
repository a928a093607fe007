/** String helpers standing in for the parts of Go's `strings` and `strconv`
    packages the modelled code calls. Strings are sequences of code points. */
module Text {

  /** Go's `strings.HasPrefix`. */
  predicate HasPrefix(s: string, prefix: string) {
    |prefix| <= |s| && s[..|prefix|] == prefix
  }

  /** Go's `strings.HasSuffix`. */
  predicate HasSuffix(s: string, suffix: string) {
    |suffix| <= |s| && s[|s| - |suffix|..] == suffix
  }

  /** Go's `strings.Contains`: `sub` occurs somewhere in `s`. */
  predicate Contains(s: string, sub: string)
    decreases |s|
  {
    HasPrefix(s, sub) || (|s| > 0 && Contains(s[1..], sub))
  }

  /** Go's `strings.TrimSuffix`: removes one trailing `suffix` if present. */
  function TrimSuffix(s: string, suffix: string): (r: string)
    ensures HasSuffix(s, suffix) ==> r + suffix == s
    ensures !HasSuffix(s, suffix) ==> r == s
  {
    if HasSuffix(s, suffix) then s[..|s| - |suffix|] else s
  }

  /** Index of the first `c` in `s`, or -1. */
  function IndexOf(s: string, c: char): (r: int)
    ensures r == -1 <==> c !in s
    ensures 0 <= r ==> r < |s| && s[r] == c && c !in s[..r]
  {
    if |s| == 0 then -1
    else if s[0] == c then 0
    else
      var k := IndexOf(s[1..], c);
      assert s[1..][..if k < 0 then 0 else k] == s[1..1 + (if k < 0 then 0 else k)];
      if k < 0 then -1 else k + 1
  }

  /** Go's `strings.Split` with a one-character separator: the maximal
      pieces between separators, in order, always at least one. */
  function Split(s: string, sep: char): (parts: seq<string>)
    ensures |parts| >= 1
    decreases |s|
  {
    var i := IndexOf(s, sep);
    if i < 0 then [s] else [s[..i]] + Split(s[i + 1..], sep)
  }

  /** The first piece of a split is the text before the first separator,
      and there is a second piece exactly when the separator occurs; that
      piece is the first piece of what follows the separator. */
  lemma SplitHead(s: string, sep: char)
    ensures sep !in s ==> Split(s, sep) == [s]
    ensures sep in s ==>
      var i := IndexOf(s, sep);
      |Split(s, sep)| >= 2 &&
      Split(s, sep)[0] == s[..i] &&
      Split(s, sep)[1] == Split(s[i + 1..], sep)[0]
  {
  }

  /** Splitting at a first separator peels off the text before it. */
  lemma SplitAt(head: string, sep: char, tail: string)
    requires sep !in head
    ensures Split(head + [sep] + tail, sep) == [head] + Split(tail, sep)
  {
    var s := head + [sep] + tail;
    assert s[|head|] == sep && s[..|head|] == head;
    assert IndexOf(s, sep) == |head|;
    assert s[|head| + 1..] == tail;
  }

  /** Go's `strconv.Itoa` (base-10 text of a non-negative integer). */
  function Decimal(n: nat): (r: string)
    ensures |r| >= 1
    ensures forall k :: 0 <= k < |r| ==> '0' <= r[k] <= '9'
  {
    if n < 10 then [DigitChar(n)] else Decimal(n / 10) + [DigitChar(n % 10)]
  }

  /** Go's `%d` of an `int`. */
  function IntText(i: int): (r: string)
    ensures |r| >= 1
  {
    if i < 0 then "-" + Decimal(-i) else Decimal(i)
  }

  function DigitChar(d: nat): (c: char)
    requires d < 10
    ensures '0' <= c <= '9'
  {
    ('0' as int + d) as char
  }

  predicate IsDigit(c: char) {
    '0' <= c <= '9'
  }

  function DigitValue(c: char): (d: nat)
    requires IsDigit(c)
    ensures d < 10
  {
    c as int - '0' as int
  }

  predicate AllDigits(s: string) {
    forall k :: 0 <= k < |s| ==> IsDigit(s[k])
  }

  /** The value of a run of decimal digits, most significant first. */
  function DigitsValue(s: string): (v: nat)
    requires AllDigits(s)
  {
    if |s| == 0 then 0 else DigitsValue(s[..|s| - 1]) * 10 + DigitValue(s[|s| - 1])
  }

  /** Appending a digit shifts the value one place. */
  lemma DigitsAppend(s: string, c: char)
    requires AllDigits(s) && IsDigit(c)
    ensures AllDigits(s + [c]) && DigitsValue(s + [c]) == DigitsValue(s) * 10 + DigitValue(c)
  {
    assert (s + [c])[..|s|] == s;
  }

  /** Reading back the text of a number gives the number. */
  lemma {:induction false} DecimalValue(n: nat)
    ensures AllDigits(Decimal(n)) && DigitsValue(Decimal(n)) == n
  {
    if n >= 10 {
      DecimalValue(n / 10);
      var d := Decimal(n / 10) + [DigitChar(n % 10)];
      assert d[..|d| - 1] == Decimal(n / 10);
    }
  }

  /** Go's `unicode.IsSpace`, the test `strings.TrimSpace` uses. */
  predicate IsSpace(c: char) {
    var u := c as int;
    (0x09 <= u <= 0x0D) || u == 0x20 || u == 0x85 || u == 0xA0 || u == 0x1680 ||
    (0x2000 <= u <= 0x200A) || u == 0x2028 || u == 0x2029 || u == 0x202F ||
    u == 0x205F || u == 0x3000
  }

  function TrimLeftSpace(s: string): (r: string)
    ensures |r| <= |s| && r == s[|s| - |r|..]
    ensures r == [] || !IsSpace(r[0])
    ensures forall k :: 0 <= k < |s| - |r| ==> IsSpace(s[k])
  {
    if |s| > 0 && IsSpace(s[0]) then TrimLeftSpace(s[1..]) else s
  }

  function TrimRightSpace(s: string): (r: string)
    ensures |r| <= |s| && r == s[..|r|]
    ensures r == [] || !IsSpace(r[|r| - 1])
    ensures forall k :: |r| <= k < |s| ==> IsSpace(s[k])
  {
    if |s| > 0 && IsSpace(s[|s| - 1]) then TrimRightSpace(s[..|s| - 1]) else s
  }

  /** Go's `strings.TrimSpace`: drops leading and trailing white space. */
  function TrimSpace(s: string): (r: string)
    ensures r == [] || (!IsSpace(r[0]) && !IsSpace(r[|r| - 1]))
  {
    TrimRightSpace(TrimLeftSpace(s))
  }

  /** Text without white space at either end is what trimming a tab-indented copy gives. */
  lemma TrimIndented(x: string)
    requires x != [] && !IsSpace(x[0]) && !IsSpace(x[|x| - 1])
    ensures TrimSpace("\t" + x) == x
  {
    var padded := "\t" + x;
    assert padded[0] == '\t' && IsSpace(padded[0]);
    assert padded[1..] == x;
    assert TrimLeftSpace(padded) == TrimLeftSpace(x);
    assert TrimLeftSpace(x) == x;
    assert TrimRightSpace(x) == x;
  }

  /** ASCII upper case, as `strings.ToUpper` does for the ASCII level names. */
  function UpperChar(c: char): char {
    if 'a' <= c <= 'z' then (c as int - 32) as char else c
  }

  function ToUpper(s: string): (r: string)
    ensures |r| == |s|
    ensures forall k :: 0 <= k < |s| ==> r[k] == UpperChar(s[k])
  {
    if |s| == 0 then [] else [UpperChar(s[0])] + ToUpper(s[1..])
  }
}
