/** `datetime.now().strftime("%Y%m%d-%H%M%S")`: the clock reading is an input,
    the formatting is modelled, and the text is shown to parse back to the
    reading it came from. */
module Timestamp {

  function Pow10(n: nat): (p: nat)
    ensures p >= 1
  {
    if n == 0 then 1 else 10 * Pow10(n - 1)
  }

  predicate IsDigit(c: char) {
    '0' <= c <= '9'
  }

  function DigitValue(c: char): nat {
    if IsDigit(c) then c as int - '0' as int else 0
  }

  /** The number a string of decimal digits denotes. */
  function DigitsValue(s: string): nat {
    if s == [] then 0 else 10 * DigitsValue(s[..|s| - 1]) + DigitValue(s[|s| - 1])
  }

  /** `n` written with exactly `width` digits, zero-padded on the left. */
  function Digits(n: nat, width: nat): (s: string)
    requires n < Pow10(width)
    ensures |s| == width
    ensures forall i :: 0 <= i < |s| ==> IsDigit(s[i])
    ensures DigitsValue(s) == n
    decreases width
  {
    if width == 0 then []
    else
      var high := Digits(n / 10, width - 1);
      var s := high + [('0' as int + n % 10) as char];
      assert s[..|s| - 1] == high;
      s
  }

  datatype DateTime = DateTime(year: int, month: int, day: int, hour: int, minute: int, second: int) {
    /** A reading of `datetime.now()` with a four-digit year. */
    predicate Valid() {
      && 1000 <= year <= 9999
      && 1 <= month <= 12
      && 1 <= day <= 31
      && 0 <= hour < 24
      && 0 <= minute < 60
      && 0 <= second < 60
    }
  }

  type Clock = d: DateTime | d.Valid() witness DateTime(2000, 1, 1, 0, 0, 0)

  /** Three pieces of a concatenation can be cut back out of it. */
  lemma {:induction false} Pieces(a: string, b: string, c: string)
    ensures (a + b + c)[0..|a|] == a
    ensures (a + b + c)[|a|..|a| + |b|] == b
    ensures (a + b + c)[|a| + |b|..] == c
  {
    var s := a + b + c;
    assert forall i :: 0 <= i < |a| ==> s[0..|a|][i] == a[i];
    assert forall i :: 0 <= i < |b| ==> s[|a|..|a| + |b|][i] == b[i];
    assert forall i :: 0 <= i < |c| ==> s[|a| + |b|..][i] == c[i];
  }

  /** `%Y%m%d` */
  function Date(t: Clock): (s: string)
    ensures |s| == 8
  {
    Digits(t.year, 4) + Digits(t.month, 2) + Digits(t.day, 2)
  }

  /** `%H%M%S` */
  function TimeOfDay(t: Clock): (s: string)
    ensures |s| == 6
  {
    Digits(t.hour, 2) + Digits(t.minute, 2) + Digits(t.second, 2)
  }

  /** `%Y%m%d-%H%M%S` */
  function Strftime(t: Clock): (s: string)
    ensures |s| == 15
    ensures s[8] == '-'
    ensures forall i :: 0 <= i < 15 && i != 8 ==> IsDigit(s[i])
  {
    Date(t) + "-" + TimeOfDay(t)
  }

  /** Reads a `%Y%m%d-%H%M%S` stamp back into its fields. */
  function ParseStamp(s: string): DateTime
    requires |s| == 15
  {
    DateTime(DigitsValue(s[0..4]), DigitsValue(s[4..6]), DigitsValue(s[6..8]),
             DigitsValue(s[9..11]), DigitsValue(s[11..13]), DigitsValue(s[13..15]))
  }

  /** The values of three digit strings can be read back from their concatenation. */
  lemma PieceValues(a: string, b: string, c: string)
    ensures DigitsValue((a + b + c)[0..|a|]) == DigitsValue(a)
    ensures DigitsValue((a + b + c)[|a|..|a| + |b|]) == DigitsValue(b)
    ensures DigitsValue((a + b + c)[|a| + |b|..]) == DigitsValue(c)
  {
    Pieces(a, b, c);
  }

  lemma Pow10Four()
    ensures Pow10(4) == 10000
  {
    assert Pow10(2) == 100;
  }

  lemma DateFields(t: Clock)
    ensures DigitsValue(Date(t)[0..4]) == t.year
    ensures DigitsValue(Date(t)[4..6]) == t.month
    ensures DigitsValue(Date(t)[6..8]) == t.day
  {
    Pow10Four();
    var y, m, d := Digits(t.year, 4), Digits(t.month, 2), Digits(t.day, 2);
    assert Date(t) == y + m + d;
    PieceValues(y, m, d);
  }

  lemma TimeFields(t: Clock)
    ensures DigitsValue(TimeOfDay(t)[0..2]) == t.hour
    ensures DigitsValue(TimeOfDay(t)[2..4]) == t.minute
    ensures DigitsValue(TimeOfDay(t)[4..6]) == t.second
  {
    var h, m, s := Digits(t.hour, 2), Digits(t.minute, 2), Digits(t.second, 2);
    assert TimeOfDay(t) == h + m + s;
    PieceValues(h, m, s);
  }

  /** The stamp determines the clock reading: no two readings format alike. */
  lemma StrftimeRoundTrip(t: Clock)
    ensures ParseStamp(Strftime(t)) == t
  {
    var s := Strftime(t);
    var date, time := Date(t), TimeOfDay(t);
    Pieces(date, "-", time);
    DateFields(t);
    TimeFields(t);
    assert s[0..4] == date[0..4] && s[4..6] == date[4..6] && s[6..8] == date[6..8];
    assert s[9..11] == time[0..2] && s[11..13] == time[2..4] && s[13..15] == time[4..6];
  }
}
