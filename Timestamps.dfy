/**
 * `datetime.strptime(published, '%Y-%m-%dT%H:%M:%S%z').date()` for the fixed-width form
 * `YYYY-MM-DDTHH:MM:SS` followed by `Z`, `+HH:MM` or `+HHMM` (sign `+` or `-`).
 * The format's literal `T` is matched without regard to case, `Z` only in upper case.
 * `.date()` keeps the calendar date written in the text; the offset is checked, never applied.
 */
module Timestamps {
  import opened Wrappers
  import Seqs

  datatype Date = Date(year: int, month: int, day: int)
  datatype Time = Time(hour: int, minute: int, second: int)
  datatype Offset = Zulu | Numeric(negative: bool, hours: int, minutes: int, colon: bool)

  predicate IsLeapYear(y: int)
  {
    y % 4 == 0 && (y % 100 != 0 || y % 400 == 0)
  }

  function DaysInMonth(y: int, m: int): int
    requires 1 <= m <= 12
  {
    if m == 2 then (if IsLeapYear(y) then 29 else 28)
    else if m == 4 || m == 6 || m == 9 || m == 11 then 30
    else 31
  }

  /** The dates Python's `date` can hold. */
  predicate ValidDate(d: Date)
  {
    1 <= d.year <= 9999 && 1 <= d.month <= 12 && 1 <= d.day <= DaysInMonth(d.year, d.month)
  }

  /** `%S` accepts 60 and 61, but the `datetime` built from them rejects any second above 59. */
  predicate ValidTime(t: Time)
  {
    0 <= t.hour <= 23 && 0 <= t.minute <= 59 && 0 <= t.second <= 59
  }

  /** `%z` minutes are `[0-5]\d`; the resulting offset must be under 24 hours. */
  predicate ValidOffset(o: Offset)
  {
    o.Numeric? ==> 0 <= o.hours <= 23 && 0 <= o.minutes <= 59
  }

  predicate IsDigit(c: char)
  {
    '0' <= c <= '9'
  }

  predicate AllDigits(s: string)
  {
    forall i :: 0 <= i < |s| ==> IsDigit(s[i])
  }

  /** The decimal value of a digit string. */
  function Number(s: string): nat
    requires AllDigits(s)
  {
    if s == [] then 0
    else
      var init := s[..|s| - 1];
      assert AllDigits(init) by {
        forall i | 0 <= i < |init| ensures IsDigit(init[i]) {
          assert init[i] == s[i];
        }
      }
      Number(init) * 10 + (s[|s| - 1] as int - '0' as int)
  }

  /** The value of the digits `s[lo..hi]`, or None when one of them is not a digit. */
  function Field(s: string, lo: nat, hi: nat): Option<nat>
    requires lo <= hi <= |s|
  {
    if AllDigits(s[lo..hi]) then Some(Number(s[lo..hi])) else None
  }

  /** `YYYY-MM-DD`, the first ten characters. */
  function ParseDatePart(p: string): Option<Date>
  {
    if |p| != 10 || p[4] != '-' || p[7] != '-' then None
    else
      var year, month, day := Field(p, 0, 4), Field(p, 5, 7), Field(p, 8, 10);
      if year.None? || month.None? || day.None? then None
      else
        var d := Date(year.value, month.value, day.value);
        if ValidDate(d) then Some(d) else None
  }

  /** `HH:MM:SS`, the eight characters after the `T`. */
  function ParseTimePart(p: string): Option<Time>
  {
    if |p| != 8 || p[2] != ':' || p[5] != ':' then None
    else
      var hour, minute, second := Field(p, 0, 2), Field(p, 3, 5), Field(p, 6, 8);
      if hour.None? || minute.None? || second.None? then None
      else
        var t := Time(hour.value, minute.value, second.value);
        if ValidTime(t) then Some(t) else None
  }

  /** The text that `%z` accepts, in the modelled forms. */
  function ParseOffset(z: string): Option<Offset>
  {
    if z == "Z" then Some(Zulu)
    else if (|z| == 5 || (|z| == 6 && z[3] == ':')) && (z[0] == '+' || z[0] == '-') then
      var h := Field(z, 1, 3);
      var m := Field(z, |z| - 2, |z|);
      if h.Some? && m.Some? && h.value <= 23 && m.value <= 59
      then Some(Numeric(z[0] == '-', h.value, m.value, |z| == 6))
      else None
    else None
  }

  /**
   * The calendar date a published timestamp denotes, or None where `strptime` raises.
   * A date is returned only for a real calendar date (no 30 February).
   */
  function ParseTimestamp(s: string): (r: Option<Date>)
    ensures r.Some? ==> ValidDate(r.value)
  {
    if |s| < 19 || (s[10] != 'T' && s[10] != 't') then None
    else if ParseTimePart(s[11..19]).None? || ParseOffset(s[19..]).None? then None
    else ParseDatePart(s[..10])
  }

  // ---------------------------------------------------------------------------------
  // Writing timestamps, and reading them back

  function Pow10(n: nat): nat
  {
    if n == 0 then 1 else 10 * Pow10(n - 1)
  }

  lemma Pow10Values()
    ensures Pow10(2) == 100 && Pow10(4) == 10000
  {
    assert Pow10(1) == 10;
    assert Pow10(3) == 1000;
  }

  /** `n` written with exactly `width` digits, padded with zeros (`%04d`, `%02d`). */
  function Pad(n: nat, width: nat): string
  {
    if width == 0 then [] else Pad(n / 10, width - 1) + [('0' as int + n % 10) as char]
  }

  /** Padding is read back exactly by Number when the value fits the width. */
  lemma {:induction false} PadNumber(n: nat, width: nat)
    requires n < Pow10(width)
    ensures |Pad(n, width)| == width && AllDigits(Pad(n, width)) && Number(Pad(n, width)) == n
  {
    if width > 0 {
      PadNumber(n / 10, width - 1);
      var p := Pad(n, width);
      assert p[..|p| - 1] == Pad(n / 10, width - 1);
    }
  }

  /** A digit string is the padding of its own value. */
  lemma {:induction false} NumberPad(s: string)
    requires AllDigits(s)
    ensures Number(s) < Pow10(|s|) && Pad(Number(s), |s|) == s
  {
    if s != [] {
      var init := s[..|s| - 1];
      assert AllDigits(init) by {
        forall i | 0 <= i < |init| ensures IsDigit(init[i]) {
          assert init[i] == s[i];
        }
      }
      NumberPad(init);
      var n := Number(s);
      var last := s[|s| - 1] as int - '0' as int;
      assert n == Number(init) * 10 + last;
      assert n / 10 == Number(init) && n % 10 == last;
      assert s == init + [s[|s| - 1]];
    }
  }

  lemma FieldOfPad(s: string, lo: nat, n: nat, width: nat)
    requires lo + width <= |s| && n < Pow10(width) && s[lo..lo + width] == Pad(n, width)
    ensures Field(s, lo, lo + width) == Some(n)
  {
    PadNumber(n, width);
  }

  /** The five pieces of a concatenation, recovered by slicing. */
  lemma Pieces(a: string, b: string, c: string, d: string, e: string)
    ensures var s, i, j, k, l := a + b + c + d + e, |a|, |a| + |b|, |a| + |b| + |c|, |a| + |b| + |c| + |d|;
      |s| == l + |e| && s[..i] == a && s[i..j] == b && s[j..k] == c && s[k..l] == d && s[l..] == e
  {
  }

  function FormatDate(d: Date): string
    requires ValidDate(d)
  {
    Pad(d.year, 4) + "-" + Pad(d.month, 2) + "-" + Pad(d.day, 2)
  }

  function FormatTime(t: Time): string
    requires ValidTime(t)
  {
    Pad(t.hour, 2) + ":" + Pad(t.minute, 2) + ":" + Pad(t.second, 2)
  }

  function FormatOffset(o: Offset): string
    requires ValidOffset(o)
  {
    match o
    case Zulu => "Z"
    case Numeric(neg, h, m, colon) =>
      (if neg then "-" else "+") + Pad(h, 2) + (if colon then ":" else "") + Pad(m, 2)
  }

  /** The timestamp text a feed carries for a date, a time of day and an offset. */
  function FormatTimestamp(d: Date, t: Time, o: Offset): string
    requires ValidDate(d) && ValidTime(t) && ValidOffset(o)
  {
    FormatDate(d) + "T" + FormatTime(t) + FormatOffset(o)
  }

  lemma ParseFormattedDate(d: Date)
    requires ValidDate(d)
    ensures |FormatDate(d)| == 10 && ParseDatePart(FormatDate(d)) == Some(d)
  {
    var p := FormatDate(d);
    Pow10Values();
    PadNumber(d.year, 4);
    PadNumber(d.month, 2);
    PadNumber(d.day, 2);
    Pieces(Pad(d.year, 4), "-", Pad(d.month, 2), "-", Pad(d.day, 2));
    FieldOfPad(p, 0, d.year, 4);
    FieldOfPad(p, 5, d.month, 2);
    FieldOfPad(p, 8, d.day, 2);
    assert |p| == 10 && p[4] == '-' && p[7] == '-';
    assert Field(p, 0, 4) == Some(d.year) && Field(p, 5, 7) == Some(d.month) && Field(p, 8, 10) == Some(d.day);
    assert Date(d.year, d.month, d.day) == d;
  }

  lemma ParseFormattedTime(t: Time)
    requires ValidTime(t)
    ensures |FormatTime(t)| == 8 && ParseTimePart(FormatTime(t)) == Some(t)
  {
    var p := FormatTime(t);
    PadNumber(t.hour, 2);
    PadNumber(t.minute, 2);
    PadNumber(t.second, 2);
    Pieces(Pad(t.hour, 2), ":", Pad(t.minute, 2), ":", Pad(t.second, 2));
    FieldOfPad(p, 0, t.hour, 2);
    FieldOfPad(p, 3, t.minute, 2);
    FieldOfPad(p, 6, t.second, 2);
    assert |p| == 8 && p[2] == ':' && p[5] == ':';
    assert Field(p, 0, 2) == Some(t.hour) && Field(p, 3, 5) == Some(t.minute) && Field(p, 6, 8) == Some(t.second);
  }

  /** A numeric offset reads back as its sign, its two digit fields and its separator. */
  lemma ParseNumericOffset(sign: string, hh: string, sep: string, mm: string)
    requires sign == "+" || sign == "-"
    requires sep == "" || sep == ":"
    requires |hh| == 2 && |mm| == 2 && AllDigits(hh) && AllDigits(mm)
    requires Number(hh) <= 23 && Number(mm) <= 59
    ensures ParseOffset(sign + hh + sep + mm) == Some(Numeric(sign == "-", Number(hh), Number(mm), sep == ":"))
  {
    var z := sign + hh + sep + mm;
    OffsetPieces(sign, hh, sep, mm);
    assert Field(z, 1, 3) == Some(Number(hh));
    assert Field(z, |z| - 2, |z|) == Some(Number(mm));
    NumericOffsetOf(z, Number(hh), Number(mm));
  }

  /** Where the pieces of a numeric offset sit in its text. */
  lemma OffsetPieces(sign: string, hh: string, sep: string, mm: string)
    requires sign == "+" || sign == "-"
    requires sep == "" || sep == ":"
    requires |hh| == 2 && |mm| == 2
    ensures var z := sign + hh + sep + mm;
      (|z| == 6) == (sep == ":") && (|z| == 5 || (|z| == 6 && z[3] == ':'))
      && (z[0] == '-') == (sign == "-") && (z[0] == '+' || z[0] == '-')
      && z[1..3] == hh && z[|z| - 2..|z|] == mm
  {
    var z := sign + hh + sep + mm;
    Seqs.ConcatSlices(sign + hh, sep, mm);
    assert z == sign + hh + (sep + mm);
    Seqs.ConcatSlices(sign, hh, sep + mm);
  }

  lemma NumericOffsetOf(z: string, h: nat, m: nat)
    requires |z| == 5 || (|z| == 6 && z[3] == ':')
    requires z[0] == '+' || z[0] == '-'
    requires Field(z, 1, 3) == Some(h) && Field(z, |z| - 2, |z|) == Some(m) && h <= 23 && m <= 59
    ensures ParseOffset(z) == Some(Numeric(z[0] == '-', h, m, |z| == 6))
  {
    assert z != "Z";
  }

  lemma ParseFormattedOffset(o: Offset)
    requires ValidOffset(o)
    ensures ParseOffset(FormatOffset(o)) == Some(o)
  {
    if o.Numeric? {
      var sign: string := if o.negative then "-" else "+";
      var sep: string := if o.colon then ":" else "";
      PadNumber(o.hours, 2);
      PadNumber(o.minutes, 2);
      ParseNumericOffset(sign, Pad(o.hours, 2), sep, Pad(o.minutes, 2));
    }
  }

  /**
   * Parsing a well-formed timestamp gives back the date written in it, whatever the
   * time of day and whatever the offset: no conversion to UTC takes place.
   */
  lemma ParseFormat(d: Date, t: Time, o: Offset)
    requires ValidDate(d) && ValidTime(t) && ValidOffset(o)
    ensures ParseTimestamp(FormatTimestamp(d, t, o)) == Some(d)
  {
    ParseFormattedDate(d);
    ParseFormattedTime(t);
    ParseFormattedOffset(o);
    Pieces(FormatDate(d), "T", FormatTime(t), FormatOffset(o), "");
    assert FormatTimestamp(d, t, o) == FormatDate(d) + "T" + FormatTime(t) + FormatOffset(o) + "";
  }

  /** The date part reads only what `FormatDate` writes. */
  lemma DatePartAsWritten(p: string)
    requires ParseDatePart(p).Some?
    ensures ValidDate(ParseDatePart(p).value) && p == FormatDate(ParseDatePart(p).value)
  {
    var d := ParseDatePart(p).value;
    var y, m, dd := p[0..4], p[5..7], p[8..10];
    NumberPad(y);
    NumberPad(m);
    NumberPad(dd);
    assert Pad(d.year, 4) == y && Pad(d.month, 2) == m && Pad(d.day, 2) == dd;
    assert p == y + "-" + m + "-" + dd by {
      var q := y + "-" + m + "-" + dd;
      assert |q| == 10;
      forall i | 0 <= i < 10 ensures p[i] == q[i] {
        if i < 4 { assert q[i] == y[i]; }
        else if i == 4 { assert q[i] == '-'; }
        else if i < 7 { assert q[i] == m[i - 5]; }
        else if i == 7 { assert q[i] == '-'; }
        else { assert q[i] == dd[i - 8]; }
      }
    }
  }

  /** The time part reads only what `FormatTime` writes. */
  lemma TimePartAsWritten(p: string)
    requires ParseTimePart(p).Some?
    ensures ValidTime(ParseTimePart(p).value) && p == FormatTime(ParseTimePart(p).value)
  {
    var t := ParseTimePart(p).value;
    var h, m, sec := p[0..2], p[3..5], p[6..8];
    NumberPad(h);
    NumberPad(m);
    NumberPad(sec);
    assert Pad(t.hour, 2) == h && Pad(t.minute, 2) == m && Pad(t.second, 2) == sec;
    assert p == h + ":" + m + ":" + sec by {
      var q := h + ":" + m + ":" + sec;
      assert |q| == 8;
      forall i | 0 <= i < 8 ensures p[i] == q[i] {
        if i < 2 { assert q[i] == h[i]; }
        else if i == 2 { assert q[i] == ':'; }
        else if i < 5 { assert q[i] == m[i - 3]; }
        else if i == 5 { assert q[i] == ':'; }
        else { assert q[i] == sec[i - 6]; }
      }
    }
  }

  /** A numeric offset that parses splits into a sign, two hour digits, a separator and two minute digits. */
  lemma NumericOffsetParts(z: string)
    requires ParseOffset(z).Some? && z != "Z"
    ensures var sign, hh, sep, mm := z[..1], z[1..3], z[3..|z| - 2], z[|z| - 2..|z|];
      z == sign + hh + sep + mm && (sign == "+" || sign == "-") && (sep == "" || sep == ":")
      && |hh| == 2 && |mm| == 2 && AllDigits(hh) && AllDigits(mm) && Number(hh) <= 23 && Number(mm) <= 59
  {
    var sign, hh, sep, mm := z[..1], z[1..3], z[3..|z| - 2], z[|z| - 2..|z|];
    assert sign == [z[0]];
    if |z| == 6 {
      assert sep == [z[3]];
    }
    assert z == sign + hh + sep + mm;
  }

  /** The offset part reads only what `FormatOffset` writes. */
  lemma OffsetAsWritten(z: string)
    requires ParseOffset(z).Some?
    ensures ValidOffset(ParseOffset(z).value) && z == FormatOffset(ParseOffset(z).value)
  {
    if z != "Z" {
      var sign, hh, sep, mm := z[..1], z[1..3], z[3..|z| - 2], z[|z| - 2..|z|];
      NumericOffsetParts(z);
      ParseNumericOffset(sign, hh, sep, mm);
      NumberPad(hh);
      NumberPad(mm);
      var o := Numeric(sign == "-", Number(hh), Number(mm), sep == ":");
      assert ParseOffset(z) == Some(o);
      assert (if o.negative then "-" else "+") == sign;
      assert (if o.colon then ":" else "") == sep;
      assert FormatOffset(o) == sign + Pad(o.hours, 2) + sep + Pad(o.minutes, 2);
    }
  }

  /**
   * A timestamp parses only when it is a written date, a `T` in either case, a valid time
   * of day and a valid offset, and nothing else: the rejection half of the format match.
   */
  lemma ParsedIsFormatted(s: string)
    requires ParseTimestamp(s).Some?
    ensures exists t, o :: (ValidTime(t) && ValidOffset(o) && (s[10] == 'T' || s[10] == 't')
                            && s == FormatDate(ParseTimestamp(s).value) + [s[10]] + FormatTime(t) + FormatOffset(o))
  {
    var t := ParseTimePart(s[11..19]).value;
    var o := ParseOffset(s[19..]).value;
    DatePartAsWritten(s[..10]);
    TimePartAsWritten(s[11..19]);
    OffsetAsWritten(s[19..]);
    assert s == s[..10] + [s[10]] + s[11..19] + s[19..];
  }

  /** Hour 24 is not a time of day, so such a timestamp is malformed. */
  lemma RejectsHour24()
    ensures ParseTimestamp("2024-05-01T24:00:00Z").None?
  {
    var s := "2024-05-01T24:00:00Z";
    var p := s[11..19];
    assert p == "24:00:00";
    assert Field(p, 0, 2) == Some(24) by {
      assert p[0..2] == "24";
      assert AllDigits("24");
      assert Number("24") == 24 by {
        assert "24"[..1] == "2";
        assert "2"[..0] == "";
      }
    }
  }

  /** Conversely, the date parsed from a timestamp is the one its first ten characters spell. */
  lemma DateAsWritten(s: string)
    requires ParseTimestamp(s).Some?
    ensures ValidDate(ParseTimestamp(s).value)
    ensures s[..10] == FormatDate(ParseTimestamp(s).value)
  {
    DatePartAsWritten(s[..10]);
  }

  /** Distinct dates are written differently. */
  lemma FormatDateInjective(a: Date, b: Date)
    requires ValidDate(a) && ValidDate(b) && FormatDate(a) == FormatDate(b)
    ensures a == b
  {
    ParseFormattedDate(a);
    ParseFormattedDate(b);
  }
}
