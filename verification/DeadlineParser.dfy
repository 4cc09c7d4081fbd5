/**
  `parseAbsoluteDeadline`: the strict datetime forms of the command line.

  A value is a sequence of bytes, one character each.  `time.Parse` and `time.Date` in an arbitrary zone
  are parameters: `rfc3339` gives the year and instant it reads, if any, and `date` the instant that
  `time.Date` picks.  The fields follow section 5.6 of RFC 3339.
 */
module DeadlineParser {
  import opened Calendar
  import opened LocalInstant
  import opened Numerals
  import opened Options
  import opened Printing

  // Digits

  method AllASCIIDigits(value: string) returns (all: bool)
    ensures all <==> AllDigits(value)
  {
    if value == "" {
      return false;
    }
    for index := 0 to |value|
      invariant forall i :: 0 <= i < index ==> IsDigit(value[i])
    {
      if value[index] < '0' || value[index] > '9' {
        return false;
      }
    }
    return true;
  }

  method ParseASCIIDigits(value: string) returns (result: int)
    requires AllDigits(value)
    ensures result == Number(value)
  {
    result := 0;
    for index := 0 to |value|
      invariant result == Number(value[..index])
    {
      assert value[..index + 1][..index] == value[..index];
      result := result * 10 + (value[index] as int - '0' as int);
    }
    assert value[..|value|] == value;
  }

  // The local layouts

  /** The digit groups of a local value, in the order they are written. */
  function Layout(y: string, mo: string, d: string, h: string, mi: string): string {
    y + "-" + mo + "-" + d + "T" + h + ":" + mi
  }

  function Print(f: Fields, seconds: bool): string
    requires f.year >= 0 && f.month >= 0 && f.day >= 0 && f.hour >= 0 && f.minute >= 0 && f.second >= 0
  {
    Layout(Padded(f.year, 4), Padded(f.month, 2), Padded(f.day, 2), Padded(f.hour, 2), Padded(f.minute, 2))
    + (if seconds then ":" + Padded(f.second, 2) else "")
  }

  /** `value` is the text of the real date and time `f` in a year from 0001 to 9999. */
  predicate Denotes(value: string, f: Fields) {
    && InRange(f) && 1 <= f.year <= 9999
    && (value == Print(f, true) || (f.second == 0 && value == Print(f, false)))
  }

  predicate LocalShape(value: string) {
    && (|value| == 16 || |value| == 19)
    && value[4] == '-' && value[7] == '-' && value[10] == 'T' && value[13] == ':'
    && (|value| == 19 ==> value[16] == ':')
    && AllDigits(value[..4]) && AllDigits(value[5..7]) && AllDigits(value[8..10])
    && AllDigits(value[11..13]) && AllDigits(value[14..16])
    && (|value| == 19 ==> AllDigits(value[17..19]))
  }

  /** The numbers of a value of the right shape, normalised by nothing. */
  function Read(value: string): Fields
    requires LocalShape(value)
  {
    Fields(Number(value[..4]), Number(value[5..7]), Number(value[8..10]), Number(value[11..13]), Number(value[14..16]),
           if |value| == 19 then Number(value[17..19]) else 0)
  }

  lemma LayoutParts(value: string)
    requires |value| >= 16 && value[4] == '-' && value[7] == '-' && value[10] == 'T' && value[13] == ':'
    ensures value[..16] == Layout(value[..4], value[5..7], value[8..10], value[11..13], value[14..16])
  {
  }

  lemma PartsOfLayout(y: string, mo: string, d: string, h: string, mi: string, tail: string)
    requires |y| == 4 && |mo| == |d| == |h| == |mi| == 2
    ensures var v := Layout(y, mo, d, h, mi) + tail;
            && |v| == 16 + |tail| && v[..4] == y && v[5..7] == mo && v[8..10] == d && v[11..13] == h && v[14..16] == mi
            && v[4] == '-' && v[7] == '-' && v[10] == 'T' && v[13] == ':' && v[16..] == tail
  {
  }

  lemma SecondsPart(value: string)
    requires LocalShape(value)
    ensures value[16..] == if |value| == 19 then ":" + value[17..19] else ""
    ensures value == value[..16] + value[16..]
  {
  }

  lemma ReadGroups(value: string)
    requires LocalShape(value)
    ensures var f := Read(value);
            && 0 <= f.year < Power(4) && 0 <= f.month < Power(2) && 0 <= f.day < Power(2)
            && 0 <= f.hour < Power(2) && 0 <= f.minute < Power(2) && 0 <= f.second
            && Padded(f.year, 4) == value[..4] && Padded(f.month, 2) == value[5..7] && Padded(f.day, 2) == value[8..10]
            && Padded(f.hour, 2) == value[11..13] && Padded(f.minute, 2) == value[14..16]
            && (|value| == 19 ==> Padded(f.second, 2) == value[17..19])
  {
    hide Power, Padded, Number;
    PaddedPrintsBack(value[..4]);
    PaddedPrintsBack(value[5..7]);
    PaddedPrintsBack(value[8..10]);
    PaddedPrintsBack(value[11..13]);
    PaddedPrintsBack(value[14..16]);
    if |value| == 19 {
      PaddedPrintsBack(value[17..19]);
    }
  }

  /** Printing what was read gives the value back. */
  lemma ReadPrintsBack(value: string)
    requires LocalShape(value)
    ensures var f := Read(value);
            && 0 <= f.year <= 9999 && 0 <= f.month && 0 <= f.day && 0 <= f.hour && 0 <= f.minute && 0 <= f.second
            && value == Print(f, |value| == 19)
  {
    hide Padded, Number, Read;
    Powers();
    ReadGroups(value);
    SecondsPart(value);
    LayoutParts(value);
  }

  predicate FitsItsDigits(f: Fields) {
    && 0 <= f.year < 10000 && 0 <= f.month < 100 && 0 <= f.day < 100
    && 0 <= f.hour < 100 && 0 <= f.minute < 100 && 0 <= f.second < 100
  }

  lemma DigitsReadBack(f: Fields, seconds: bool)
    requires FitsItsDigits(f) && (seconds || f.second == 0)
    ensures LocalShape(Print(f, seconds)) && Read(Print(f, seconds)) == f
  {
    hide Padded, Number, Power;
    Powers();
    PaddedReadsBack(f.year, 4);
    PaddedReadsBack(f.month, 2);
    PaddedReadsBack(f.day, 2);
    PaddedReadsBack(f.hour, 2);
    PaddedReadsBack(f.minute, 2);
    PaddedReadsBack(f.second, 2);
    var tail := if seconds then ":" + Padded(f.second, 2) else "";
    PartsOfLayout(Padded(f.year, 4), Padded(f.month, 2), Padded(f.day, 2), Padded(f.hour, 2), Padded(f.minute, 2),
        tail);
    var v := Print(f, seconds);
    if seconds {
      assert v[17..19] == v[16..][1..3] == Padded(f.second, 2);
      assert v[16] == v[16..][0];
    }
  }

  /** Reading what was printed gives the fields back. */
  lemma PrintReadsBack(f: Fields, seconds: bool)
    requires InRange(f) && 1 <= f.year <= 9999 && (seconds || f.second == 0)
    ensures LocalShape(Print(f, seconds)) && Read(Print(f, seconds)) == f
  {
    hide LocalShape, Read, Print;
    DigitsReadBack(f, seconds);
  }

  /** A value has the right shape and holds a real date in the supported years iff it is the text of one. */
  lemma RealValues(value: string, f: Fields)
    ensures LocalShape(value) && Read(value) == f && InRange(f) && 1 <= f.year <= 9999 <==> Denotes(value, f)
  {
    if LocalShape(value) {
      ReadPrintsBack(value);
    }
    if Denotes(value, f) {
      if value == Print(f, true) {
        PrintReadsBack(f, true);
      } else {
        PrintReadsBack(f, false);
      }
    }
  }

  predicate DigitPair(group: string) {
    |group| == 2 && AllDigits(group)
  }

  /** The numbers that digit groups of the right lengths stand for. */
  ghost predicate Grouped(f: Fields, y: string, mo: string, d: string, h: string, mi: string, s: string) {
    && |y| == 4 && AllDigits(y)
    && DigitPair(mo) && DigitPair(d) && DigitPair(h) && DigitPair(mi) && DigitPair(s)
    && f.year == Number(y) && f.month == Number(mo) && f.day == Number(d)
    && f.hour == Number(h) && f.minute == Number(mi) && f.second == Number(s)
  }

  lemma GroupsPrintBack(f: Fields, y: string, mo: string, d: string, h: string, mi: string, s: string)
    requires Grouped(f, y, mo, d, h, mi, s)
    ensures FitsItsDigits(f)
    ensures y == Padded(f.year, 4) && mo == Padded(f.month, 2) && d == Padded(f.day, 2)
    ensures h == Padded(f.hour, 2) && mi == Padded(f.minute, 2) && s == Padded(f.second, 2)
  {
    hide Number, Padded, Power;
    Powers();
    PaddedPrintsBack(y);
    PaddedPrintsBack(mo);
    PaddedPrintsBack(d);
    PaddedPrintsBack(h);
    PaddedPrintsBack(mi);
    PaddedPrintsBack(s);
  }

  /** The groups are read in the order year, month, day, hour, minute, and second if there is one. */
  lemma ReadsInOrder(f: Fields, y: string, mo: string, d: string, h: string, mi: string, s: string)
    requires Grouped(f, y, mo, d, h, mi, s)
    ensures var value := y + "-" + mo + "-" + d + "T" + h + ":" + mi + (":" + s);
            LocalShape(value) && Read(value) == f
    ensures var value := y + "-" + mo + "-" + d + "T" + h + ":" + mi;
            LocalShape(value) && Read(value) == f.(second := 0)
  {
    hide Grouped, Number, Padded, LocalShape, Read;
    GroupsPrintBack(f, y, mo, d, h, mi, s);
    DigitsReadBack(f, true);
    DigitsReadBack(f.(second := 0), false);
    var value := y + "-" + mo + "-" + d + "T" + h + ":" + mi;
    assert Print(f, true) == value + (":" + s);
    assert Print(f.(second := 0), false) == value + "" == value;
  }

  // The parser

  predicate Zoned(value: string) {
    (|value| == 20 && value[19] == 'Z') || (|value| == 25 && (value[19] == '+' || value[19] == '-'))
  }

  predicate OffsetInRange(value: string)
    requires |value| == 25
  {
    && AllDigits(value[20..22]) && value[22] == ':' && AllDigits(value[23..25])
    && Number(value[20..22]) <= 23 && Number(value[23..25]) <= 59
  }

  /** A numeric offset with its sign, hours and minutes. */
  ghost predicate OffsetText(text: string, h: int, m: int) {
    && 0 <= h <= 23 && 0 <= m <= 59
    && (|| text == "+" + Padded(h, 2) + ":" + Padded(m, 2) || text == "-" + Padded(h, 2) + ":" + Padded(m, 2))
  }

  /** The values handed to `time.Parse`: 19 characters, then `Z` or an offset up to 23:59. */
  lemma ZonedTexts(value: string)
    ensures Zoned(value) && (|value| == 25 ==> OffsetInRange(value)) <==>
            |value| >= 19 && (value[19..] == "Z" || exists h, m :: OffsetText(value[19..], h, m))
  {
    hide Number, Padded, Power;
    Powers();
    if |value| == 25 && Zoned(value) && OffsetInRange(value) {
      var h, m := Number(value[20..22]), Number(value[23..25]);
      PaddedPrintsBack(value[20..22]);
      PaddedPrintsBack(value[23..25]);
      assert value[19..] == [value[19]] + value[20..22] + ":" + value[23..25];
      assert OffsetText(value[19..], h, m);
    }
    if |value| >= 19 && exists h, m :: OffsetText(value[19..], h, m) {
      var h, m :| OffsetText(value[19..], h, m);
      PaddedReadsBack(h, 2);
      PaddedReadsBack(m, 2);
      var tail := value[19..];
      assert tail[1..3] == Padded(h, 2) && tail[4..6] == Padded(m, 2) && tail[3] == ':';
      assert value[20..22] == tail[1..3] && value[23..25] == tail[4..6] && value[22] == tail[3];
    }
  }

  method ParseZoned(value: string, rfc3339: string -> Option<(int, int)>) returns (r: Option<int>)
    requires Zoned(value)
    ensures r == if |value| == 25 && !OffsetInRange(value) then None
                 else match rfc3339(value)
                      case None => None
                      case Some((year, instant)) => if 1 <= year <= 9999 then Some(instant) else None
  {
    if |value| == 25 {
      var hours := AllASCIIDigits(value[20..22]);
      var minutes := AllASCIIDigits(value[23..25]);
      if !hours || value[22] != ':' || !minutes {
        return None;
      }
      var h := ParseASCIIDigits(value[20..22]);
      var m := ParseASCIIDigits(value[23..25]);
      if h > 23 || m > 59 {
        return None;
      }
    }
    var parsed := rfc3339(value);
    if parsed.None? {
      return None;
    }
    if parsed.value.0 < 1 || parsed.value.0 > 9999 {
      return None;
    }
    return Some(parsed.value.1);
  }

  method ReadLocal(value: string) returns (r: Option<Fields>)
    ensures r == if LocalShape(value) then Some(Read(value)) else None
  {
    if |value| != 16 && |value| != 19 {
      return None;
    }
    if value[4] != '-' || value[7] != '-' || value[10] != 'T' || value[13] != ':' {
      return None;
    }
    if |value| == 19 && value[16] != ':' {
      return None;
    }
    var y := AllASCIIDigits(value[..4]);
    var mo := AllASCIIDigits(value[5..7]);
    var d := AllASCIIDigits(value[8..10]);
    var h := AllASCIIDigits(value[11..13]);
    var mi := AllASCIIDigits(value[14..16]);
    if !y || !mo || !d || !h || !mi {
      return None;
    }
    var year := ParseASCIIDigits(value[..4]);
    var month := ParseASCIIDigits(value[5..7]);
    var day := ParseASCIIDigits(value[8..10]);
    var hour := ParseASCIIDigits(value[11..13]);
    var minute := ParseASCIIDigits(value[14..16]);
    var second := 0;
    if |value| == 19 {
      var s := AllASCIIDigits(value[17..19]);
      if !s {
        return None;
      }
      second := ParseASCIIDigits(value[17..19]);
    }
    return Some(Fields(year, month, day, hour, minute, second));
  }

  /**
    A local value is accepted exactly when it has the right shape, its year is supported and `time.Date`
    finds an instant that shows it; the deadline is then the earliest instant that does.
   */
  method ParseLocal(value: string, l: Location, date: Fields -> int) returns (r: Option<int>)
    requires PiecewiseConstant(l)
    requires TZifOffsets(l) || forall t: int {:trigger l.bounds(t)} :: l.bounds(t) == Bounds(None, None)
    ensures r.Some? <==> LocalShape(value) && 1 <= Read(value).year <= 9999 && Shows(l, date(Read(value)), Read(value))
    ensures r.Some? ==> Shows(l, r.value, Read(value)) && forall t: int :: Shows(l, t, Read(value)) ==> r.value <= t
  {
    hide LocalShape, Read, Shows;
    var read := ReadLocal(value);
    if read.None? {
      return None;
    }
    var f := read.value;
    if f.year < 1 || f.year > 9999 {
      return None;
    }
    var parsed := date(f);
    if !Shows(l, parsed, f) {
      return None;
    }
    var earliest := EarliestLocalInstant(parsed, f, l);
    return Some(earliest);
  }

  method ParseAbsoluteDeadline(
      value: string, l: Location, date: Fields -> int, rfc3339: string -> Option<(int, int)>) returns (r: Option<int>)
    requires PiecewiseConstant(l)
    requires TZifOffsets(l) || forall t: int {:trigger l.bounds(t)} :: l.bounds(t) == Bounds(None, None)
    ensures Zoned(value) ==>
              (r.Some? <==> (|value| == 25 ==> OffsetInRange(value))
                            && rfc3339(value).Some? && 1 <= rfc3339(value).value.0 <= 9999)
    ensures Zoned(value) && r.Some? ==> r.value == rfc3339(value).value.1
    ensures !Zoned(value) ==>
              (r.Some? <==> LocalShape(value) && 1 <= Read(value).year <= 9999
                            && Shows(l, date(Read(value)), Read(value)))
    ensures !Zoned(value) && r.Some? ==>
              Shows(l, r.value, Read(value)) && forall t: int :: Shows(l, t, Read(value)) ==> r.value <= t
  {
    hide LocalShape, Read, Shows;
    if Zoned(value) {
      r := ParseZoned(value, rfc3339);
    } else {
      r := ParseLocal(value, l, date);
    }
  }

  // A location with a fixed offset

  function Fixed(offset: int): Location {
    Location(_ => offset, _ => Bounds(None, None))
  }

  function FixedDate(offset: int): Fields -> int {
    (f: Fields) => Wall(f) - offset
  }

  /** With a fixed offset the accepted values are exactly the texts of real dates, each with its one instant. */
  lemma FixedAcceptsRealDates(value: string, offset: int, f: Fields)
    ensures PiecewiseConstant(Fixed(offset))
    ensures LocalShape(value) && Read(value) == f && 1 <= f.year <= 9999
            && Shows(Fixed(offset), FixedDate(offset)(f), f) <==>
            Denotes(value, f)
    ensures Denotes(value, f) ==> forall t: int :: Shows(Fixed(offset), t, f) <==> t == Wall(f) - offset
  {
    hide Denotes, LocalShape, Read, FieldsOf, Wall, InRange;
    RealValues(value, f);
    NormaliseThenCompare(f);
    assert FixedDate(offset)(f) + offset == Wall(f);
    if Denotes(value, f) {
      forall t: int
        ensures Shows(Fixed(offset), t, f) <==> t == Wall(f) - offset
      {
        ShowsMeans(Fixed(offset), t, f);
      }
    }
  }

  /** The deadline of a value in a fixed-offset location. */
  method ParseFixed(value: string, offset: int) returns (r: Option<int>)
    ensures forall t: int :: r == Some(t) <==> exists f: Fields :: Denotes(value, f) && t == Wall(f) - offset
  {
    hide Denotes, LocalShape, Read, Shows;
    FixedAcceptsRealDates(value, offset, Fields(1, 1, 1, 0, 0, 0));
    r := ParseLocal(value, Fixed(offset), FixedDate(offset));
    forall f: Fields
      ensures Denotes(value, f) ==> r == Some(Wall(f) - offset)
    {
      FixedAcceptsRealDates(value, offset, f);
    }
    if r.Some? {
      FixedAcceptsRealDates(value, offset, Read(value));
      assert Denotes(value, Read(value));
    }
  }

  /** What the canonicaliser prints for an instant is the text of its date and time in UTC, marked as such. */
  lemma InstantIsItsText(t: int)
    requires 0 <= FieldsOf(t).year <= 9999
    ensures InRange(FieldsOf(t)) && Wall(FieldsOf(t)) == t
    ensures ShowInstant(t) == Print(FieldsOf(t), true) + "Z"
    ensures 1 <= FieldsOf(t).year ==> Denotes(Print(FieldsOf(t), true), FieldsOf(t))
  {
    hide FieldsOf, Wall, Padded;
    FieldsAreReal(t);
    Powers();
    assert ShowYear(FieldsOf(t).year) == Padded(FieldsOf(t).year, 4);
  }
}
