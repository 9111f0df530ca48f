/** Date strings as the pages store them (`YYYY-MM-DD`), the month key
    `date.substring(0, 7)`, and a numeric value that orders dates the way
    `new Date(date).getTime()` does. */
module Dates {
  import opened Common
  import opened Ordering

  predicate IsDigit(c: char)
  {
    '0' <= c <= '9'
  }

  /** A date-only ISO string: four digits, '-', two digits, '-', two digits. */
  predicate IsIsoDate(d: string)
  {
    |d| == 10 && d[4] == '-' && d[7] == '-'
    && IsDigit(d[0]) && IsDigit(d[1]) && IsDigit(d[2]) && IsDigit(d[3])
    && IsDigit(d[5]) && IsDigit(d[6]) && IsDigit(d[8]) && IsDigit(d[9])
  }

  function Digit(c: char): (n: int)
    ensures 0 <= n <= 9
    ensures IsDigit(c) ==> n == (c - '0') as int
  {
    if IsDigit(c) then (c - '0') as int else 0
  }

  /** YYYYMMDD as a number for an ISO date (0 for any other string). */
  function DateValue(d: string): (v: int)
    ensures IsIsoDate(d) ==> 0 <= v <= 99999999
  {
    if IsIsoDate(d) then
      Digit(d[0]) * 10000000 + Digit(d[1]) * 1000000 + Digit(d[2]) * 100000 + Digit(d[3]) * 10000
      + Digit(d[5]) * 1000 + Digit(d[6]) * 100 + Digit(d[8]) * 10 + Digit(d[9])
    else 0
  }

  /** `date.substring(0, 7)`: the first seven characters, or the whole
      string when it is shorter. */
  function MonthKey(d: string): (m: string)
    ensures |m| == Min(7, |d|) && m == d[..|m|]
  {
    if |d| <= 7 then d else d[..7]
  }

  /** The first position where two different ISO dates differ: a digit
      position, since both have '-' at 4 and 7. */
  lemma FirstDifference(a: string, b: string) returns (i: nat)
    requires IsIsoDate(a) && IsIsoDate(b) && a != b
    ensures i < 10 && i != 4 && i != 7 && a[..i] == b[..i] && a[i] != b[i]
  {
    i := 0;
    while a[i] == b[i]
      invariant i < 10 && a[..i] == b[..i]
      decreases 10 - i
    {
      assert a[..i + 1] == a[..i] + [a[i]];
      assert b[..i + 1] == b[..i] + [b[i]];
      if i == 9 {
        assert false;
      }
      i := i + 1;
    }
  }

  /** Dates that agree before digit position `i` and have a smaller digit
      there have a smaller value: the later places cannot make up for it. */
  lemma ValueAt(a: string, b: string, i: nat)
    requires IsIsoDate(a) && IsIsoDate(b) && i < 10 && i != 4 && i != 7
    requires forall k :: 0 <= k < i ==> a[k] == b[k]
    requires a[i] < b[i]
    ensures DateValue(a) < DateValue(b)
  {
  }

  /** For ISO dates the numeric value and the string order agree: a date
      is worth less exactly when it sorts first, and the same exactly when
      it is the same string. */
  lemma DateOrder(a: string, b: string)
    requires IsIsoDate(a) && IsIsoDate(b)
    ensures DateValue(a) < DateValue(b) <==> Lt(a, b)
    ensures DateValue(a) == DateValue(b) <==> a == b
  {
    if a == b {
      LtIrreflexive(a);
    } else {
      var i := FirstDifference(a, b);
      forall k | 0 <= k < i ensures a[k] == b[k] {
        assert a[k] == a[..i][k];
      }
      LtAsymmetric(a, b);
      if a[i] < b[i] {
        LtAt(a, b, i);
        ValueAt(a, b, i);
      } else {
        LtAt(b, a, i);
        ValueAt(b, a, i);
      }
    }
  }
}
