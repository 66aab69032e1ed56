/** date.go: a calendar date carried in JSON as a quoted "YYYY-MM-DD"
    string. Go's time layout "2006-01-02" is modelled for what it does with
    this layout only: four year digits, two month digits and two day digits,
    separated by '-'. The JSON text is taken as a string of characters. */
module Dates {
  import opened Wrappers
  import opened Decimal
  import opened Errors

  /** The reference-time layout the package formats and parses dates with. */
  const DateFormat: string := "2006-01-02"

  datatype CalendarDay = CalendarDay(year: int, month: int, day: int)

  /** The Gregorian leap year rule. */
  predicate IsLeap(year: int) {
    year % 4 == 0 && (year % 100 != 0 || year % 400 == 0)
  }

  function DaysIn(year: int, month: int): (n: int)
    requires 1 <= month <= 12
    ensures 28 <= n <= 31
    ensures month == 2 ==> (n == 29 <==> IsLeap(year))
  {
    if month == 2 then (if IsLeap(year) then 29 else 28)
    else if month == 4 || month == 6 || month == 9 || month == 11 then 30
    else 31
  }

  predicate Valid(d: CalendarDay) {
    1 <= d.month <= 12 && 1 <= d.day <= DaysIn(d.year, d.month)
  }

  /** A day that exists in the proleptic Gregorian calendar. */
  type Day = d: CalendarDay | Valid(d) witness CalendarDay(1, 1, 1)

  /** The zero time.Time, January 1 of year 1. */
  const ZeroDay: Day := CalendarDay(1, 1, 1)

  /** A number as the layout writes it: a '-' for a negative value, then the
      magnitude zero-padded to `width` digits (wider numbers are not cut). */
  function Field(x: int, width: nat): (s: string)
    ensures x >= 0 ==> AllDigits(s)
    ensures x >= 0 && 1 <= width && x < Pow10(width) ==> |s| == width && Value(s) == x
  {
    if x >= 0 then PaddedValueWhenFits(x, width); PadLeft(Digits(x), width)
    else "-" + PadLeft(Digits(-x), width)
  }

  lemma PaddedValueWhenFits(x: nat, width: nat)
    ensures AllDigits(PadLeft(Digits(x), width))
    ensures 1 <= width && x < Pow10(width) ==>
              |PadLeft(Digits(x), width)| == width && Value(PadLeft(Digits(x), width)) == x
  {
    if |Digits(x)| < width {
      ValueOfPadded(width - |Digits(x)|, Digits(x));
    }
    if 1 <= width && x < Pow10(width) {
      PaddedValue(x, width);
    }
  }

  /** Time.Format(DateFormat) of a date. */
  function Format(d: Day): (s: string)
    ensures 0 <= d.year <= 9999 ==>
              && |s| == 10 && s[4] == '-' && s[7] == '-'
              && AllDigits(s[..4]) && AllDigits(s[5..7]) && AllDigits(s[8..])
  {
    assert Pow10(2) == 100 && Pow10(4) == 10000 by {
      assert Pow10(1) == 10;
      assert Pow10(3) == 1000;
    }
    var s := Field(d.year, 4) + "-" + Field(d.month, 2) + "-" + Field(d.day, 2);
    if 0 <= d.year <= 9999 then
      assert s[..4] == Field(d.year, 4);
      assert s[5..7] == Field(d.month, 2);
      assert s[8..] == Field(d.day, 2);
      s
    else s
  }

  /** time.Parse(DateFormat, s): exactly four, two and two digits between
      '-' separators, a month from 1 to 12 and a day the month has. */
  function Parse(s: string): (r: Option<Day>)
    ensures r.Some? ==> 0 <= r.value.year <= 9999 && Format(r.value) == s
  {
    if |s| == 10 && AllDigits(s[..4]) && s[4] == '-' && AllDigits(s[5..7]) && s[7] == '-' && AllDigits(s[8..]) then
      var d := CalendarDay(Value(s[..4]), Value(s[5..7]), Value(s[8..]));
      if Valid(d) then
        ValueBelow(s[..4]);
        assert Pow10(4) == 10000 by {
          assert Pow10(2) == 100;
        }
        PaddedDigitsOfValue(s[..4]);
        PaddedDigitsOfValue(s[5..7]);
        PaddedDigitsOfValue(s[8..]);
        assert s == s[..4] + "-" + s[5..7] + "-" + s[8..];
        Some(d)
      else None
    else None
  }

  /** A formatted date with a four-digit year parses back to itself. */
  lemma ParseFormat(d: Day)
    requires 0 <= d.year <= 9999
    ensures Parse(Format(d)) == Some(d)
  {
    var s := Format(d);
    assert Pow10(2) == 100 && Pow10(4) == 10000 by {
      assert Pow10(1) == 10;
      assert Pow10(3) == 1000;
    }
    assert s[..4] == Field(d.year, 4);
    assert s[5..7] == Field(d.month, 2);
    assert s[8..] == Field(d.day, 2);
  }

  /** Parse accepts exactly the formatted dates with four-digit years. */
  lemma ParseIffFormatted(s: string, d: Day)
    ensures Parse(s) == Some(d) <==> 0 <= d.year <= 9999 && Format(d) == s
  {
    if 0 <= d.year <= 9999 && Format(d) == s {
      ParseFormat(d);
    }
  }

  /** The string with every leading '"' removed (strings.TrimLeft). */
  function TrimLeading(s: string): (r: string)
    ensures |r| <= |s| && r == s[|s| - |r|..]
    ensures forall i | 0 <= i < |s| - |r| :: s[i] == '"'
    ensures r == [] || r[0] != '"'
  {
    if s != [] && s[0] == '"' then TrimLeading(s[1..]) else s
  }

  /** The string with every trailing '"' removed (strings.TrimRight). */
  function TrimTrailing(s: string): (r: string)
    ensures |r| <= |s| && r == s[..|r|]
    ensures forall i | |r| <= i < |s| :: s[i] == '"'
    ensures r == [] || r[|r| - 1] != '"'
  {
    if s != [] && s[|s| - 1] == '"' then TrimTrailing(s[..|s| - 1]) else s
  }

  /** strings.Trim(s, `"`): the longest middle part that neither starts nor
      ends with '"', everything around it being '"'. */
  function TrimQuotes(s: string): (r: string)
    ensures r == [] || (r[0] != '"' && r[|r| - 1] != '"')
  {
    TrimTrailing(TrimLeading(s))
  }

  /** A text that neither starts nor ends with '"' comes back whole from
      between any number of quotes. */
  lemma {:induction false} TrimQuotesOfQuoted(t: string, left: nat, right: nat)
    requires t == [] || (t[0] != '"' && t[|t| - 1] != '"')
    ensures TrimQuotes(Quotes(left) + t + Quotes(right)) == t
  {
    var s := Quotes(left) + t + Quotes(right);
    if t == [] {
      assert s == Quotes(left + right) + [];
      TrimLeadingQuotes(left + right, []);
    } else {
      TrimLeadingQuotes(left, t + Quotes(right));
      assert s == Quotes(left) + (t + Quotes(right));
      TrimTrailingQuotes(t, right);
    }
  }

  function Quotes(k: nat): (s: string)
    ensures |s| == k && forall i | 0 <= i < k :: s[i] == '"'
  {
    seq(k, _ => '"')
  }

  lemma {:induction false} TrimLeadingQuotes(k: nat, u: string)
    requires u == [] || u[0] != '"'
    ensures TrimLeading(Quotes(k) + u) == u
  {
    if k > 0 {
      assert (Quotes(k) + u)[1..] == Quotes(k - 1) + u;
      TrimLeadingQuotes(k - 1, u);
    }
  }

  lemma {:induction false} TrimTrailingQuotes(t: string, k: nat)
    requires t == [] || t[|t| - 1] != '"'
    ensures TrimTrailing(t + Quotes(k)) == t
  {
    if k > 0 {
      assert (t + Quotes(k))[..|t + Quotes(k)| - 1] == t + Quotes(k - 1);
      TrimTrailingQuotes(t, k - 1);
    }
  }

  /** What UnmarshalJSON makes of the text left once the quotes are trimmed:
      Ok(None) leaves the date as it was (an empty or null value), Ok(Some(d))
      sets it to d. */
  function DecodeText(s: string): (r: Result<Option<Day>, Error>)
    ensures r == Ok(None) <==> s == "" || s == "null"
    ensures r.Ok? && r.value.Some? ==> Format(r.value.value) == s
    ensures r.Err? ==> !Retryable(r.error)
  {
    if s == "" || s == "null" then Ok(None)
    else match Parse(s)
      case None => Err(Wrapped("parse date", Failed(s)))
      case Some(d) => Ok(Some(d))
  }

  /** What UnmarshalJSON makes of a JSON text. */
  function Decoded(b: string): Result<Option<Day>, Error> {
    DecodeText(TrimQuotes(b))
  }

  /** fmt's %q of a string of digits and '-': the string between quotes. */
  function Quoted(s: string): (q: string)
    ensures |q| == |s| + 2 && q[0] == '"' && q[|q| - 1] == '"' && q[1..|q| - 1] == s
  {
    "\"" + s + "\""
  }

  /** MarshalJSON and String: the formatted date, quoted. */
  function Marshal(d: Day): (b: string)
    ensures |b| == |Format(d)| + 2 && b[0] == '"' && b[|b| - 1] == '"' && b[1..|b| - 1] == Format(d)
    ensures 0 <= d.year <= 9999 ==> |b| == 12 && b[0] == '"' && b[11] == '"' && b[1..11] == Format(d)
  {
    Quoted(Format(d))
  }

  /** Unmarshalling what MarshalJSON wrote gives the same date back. */
  lemma MarshalRoundTrip(d: Day)
    requires 0 <= d.year <= 9999
    ensures Decoded(Marshal(d)) == Ok(Some(d))
  {
    var s := Format(d);
    assert IsDigit(s[0]);
    TrimQuotesOfQuoted(s, 1, 1);
    assert Quoted(s) == Quotes(1) + s + Quotes(1);
    ParseFormat(d);
  }

  /** Quotes around a value are ignored, however many there are. */
  lemma QuotesIgnored(t: string, left: nat, right: nat)
    requires t == [] || (t[0] != '"' && t[|t| - 1] != '"')
    ensures Decoded(Quotes(left) + t + Quotes(right)) == DecodeText(t)
  {
    TrimQuotesOfQuoted(t, left, right);
  }

  /** A date embedded in JSON-decoded structures. */
  class Date {
    var time: Day

    /** The zero value. */
    constructor ()
      ensures time == ZeroDay
    {
      time := ZeroDay;
    }

    /** UnmarshalJSON: an empty or null value leaves the date unchanged, a
        well-formed one replaces it, and anything else is an error that
        leaves it unchanged. */
    method UnmarshalJSON(b: string) returns (err: Option<Error>)
      modifies this
      ensures Decoded(b).Ok? ==> err == None && time == Decoded(b).value.GetOr(old(time))
      ensures Decoded(b).Err? ==> err == Some(Decoded(b).error) && time == old(time)
    {
      var s := TrimQuotes(b);
      if s == "" || s == "null" {
        return None;
      }
      var parsed := Parse(s);
      if parsed.None? {
        return Some(Wrapped("parse date", Failed(s)));
      }
      time := parsed.value;
      err := None;
    }

    /** MarshalJSON: what it writes decodes back to the same date. */
    function MarshalJSON(): (b: string)
      reads this
      ensures 0 <= time.year <= 9999 ==> Decoded(b) == Ok(Some(time))
    {
      if 0 <= time.year <= 9999 then MarshalRoundTrip(time); Marshal(time)
      else Marshal(time)
    }

    /** String: the same text as MarshalJSON, quotes included. */
    function String(): (s: string)
      reads this
      ensures 0 <= time.year <= 9999 ==> |s| == 12 && s[0] == '"' && s[1..11] == Format(time) && s[11] == '"'
    {
      Marshal(time)
    }
  }
}
