/** How the canonicaliser prints durations (`%d`) and instants (RFC 3339 in UTC), and that it tells them apart. */
module Printing {
  import opened Calendar
  import opened Numerals

  /** `%d`. */
  function ShowInteger(n: int): string {
    if n < 0 then "-" + Decimal(-n) else Decimal(n)
  }

  /** A numeral padded with zeros to at least `width` digits. */
  function AtLeast(n: nat, width: nat): string {
    if n < Power(width) then Padded(n, width) else Decimal(n)
  }

  /** A year as `time.Format` writes it: four digits or more, with a sign if it is negative. */
  function ShowYear(year: int): string {
    if year < 0 then "-" + AtLeast(-year, 4) else AtLeast(year, 4)
  }

  /** What follows the year; 16 characters. */
  function ShowRest(f: Fields): string
    requires InRange(f)
  {
    "-" + Padded(f.month, 2) + "-" + Padded(f.day, 2) + "T" + Padded(f.hour, 2) + ":" + Padded(f.minute, 2)
    + ":" + Padded(f.second, 2) + "Z"
  }

  /** `time.RFC3339` of an instant in UTC. */
  function ShowInstant(instant: int): string {
    FieldsAreReal(instant);
    ShowYear(FieldsOf(instant).year) + ShowRest(FieldsOf(instant))
  }

  lemma AtLeastReadsBack(n: nat, width: nat)
    requires width > 0
    ensures AllDigits(AtLeast(n, width)) && Number(AtLeast(n, width)) == n
  {
    if n < Power(width) {
      PaddedReadsBack(n, width);
    } else {
      DecimalReadsBack(n);
    }
  }

  /** Numerals behind an optional sign differ if the numbers do. */
  lemma SignedApart(x: string, y: string)
    requires AllDigits(x) && AllDigits(y)
    ensures "-" + x != y && ("-" + x == "-" + y ==> x == y)
  {
    assert ("-" + x)[0] == '-' && IsDigit(y[0]);
    assert ("-" + x)[1..] == x && ("-" + y)[1..] == y;
  }

  lemma IntegersApart(a: int, b: int)
    ensures ShowInteger(a) == ShowInteger(b) ==> a == b
  {
    var x, y := if a < 0 then -a else a, if b < 0 then -b else b;
    DecimalReadsBack(x);
    DecimalReadsBack(y);
    SignedApart(Decimal(x), Decimal(y));
    SignedApart(Decimal(y), Decimal(x));
  }

  /** `%d` of a number: its shortest numeral, behind a minus sign if it is negative. */
  lemma IntegerIsItsText(n: int, text: string)
    ensures n >= 0 ==> (ShowInteger(n) == text <==> Shortest(text) && Number(text) == n)
    ensures n < 0 ==> (ShowInteger(n) == "-" + text <==> Shortest(text) && Number(text) == -n)
  {
    var x := if n < 0 then -n else n;
    DecimalReadsBack(x);
    ShortestNumeral(Decimal(x));
    if AllDigits(text) {
      ShortestNumeral(text);
    }
    if n < 0 {
      assert ("-" + Decimal(x))[1..] == Decimal(x) && ("-" + text)[1..] == text;
    }
  }

  lemma YearsApart(a: int, b: int)
    ensures ShowYear(a) == ShowYear(b) ==> a == b
  {
    hide AtLeast;
    var x, y := if a < 0 then -a else a, if b < 0 then -b else b;
    AtLeastReadsBack(x, 4);
    AtLeastReadsBack(y, 4);
    SignedApart(AtLeast(x, 4), AtLeast(y, 4));
    SignedApart(AtLeast(y, 4), AtLeast(x, 4));
  }

  lemma RestParts(f: Fields)
    requires InRange(f)
    ensures var s := ShowRest(f);
            && |s| == 16 && s[1..3] == Padded(f.month, 2) && s[4..6] == Padded(f.day, 2) && s[7..9] == Padded(f.hour, 2)
            && s[10..12] == Padded(f.minute, 2) && s[13..15] == Padded(f.second, 2)
    ensures forall n {:trigger Padded(n, 2)} :: n in {f.month, f.day, f.hour, f.minute, f.second} ==>
              AllDigits(Padded(n, 2)) && Number(Padded(n, 2)) == n
  {
    hide Padded, Number, Power;
    Powers();
    PaddedReadsBack(f.month, 2);
    PaddedReadsBack(f.day, 2);
    PaddedReadsBack(f.hour, 2);
    PaddedReadsBack(f.minute, 2);
    PaddedReadsBack(f.second, 2);
  }

  lemma RestsApart(f: Fields, g: Fields)
    requires InRange(f) && InRange(g) && ShowRest(f) == ShowRest(g)
    ensures f == g.(year := f.year)
  {
    hide Padded, Number, ShowRest, InRange;
    RestParts(f);
    RestParts(g);
    var s := ShowRest(f);
    assert Number(s[1..3]) == f.month == g.month;
    assert Number(s[4..6]) == f.day == g.day;
    assert Number(s[7..9]) == f.hour == g.hour;
    assert Number(s[10..12]) == f.minute == g.minute;
    assert Number(s[13..15]) == f.second == g.second;
  }

  lemma EqualTails(x: string, s: string, y: string, t: string)
    requires x + s == y + t && |s| == |t|
    ensures x == y && s == t
  {
    assert x == (x + s)[..|x|] && y == (y + t)[..|y|];
    assert s == (x + s)[|x|..] && t == (y + t)[|y|..];
  }

  /** Different instants are printed differently. */
  lemma InstantsApart(a: int, b: int)
    ensures ShowInstant(a) == ShowInstant(b) ==> a == b
  {
    hide ShowYear, ShowRest, FieldsOf, Wall, InRange;
    var f, g := FieldsOf(a), FieldsOf(b);
    FieldsAreReal(a);
    FieldsAreReal(b);
    RestParts(f);
    RestParts(g);
    if ShowInstant(a) == ShowInstant(b) {
      EqualTails(ShowYear(f.year), ShowRest(f), ShowYear(g.year), ShowRest(g));
      YearsApart(f.year, g.year);
      RestsApart(f, g);
    }
  }
}
