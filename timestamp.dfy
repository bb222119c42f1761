/**
 * The backup stamp `datetime.now().strftime("%Y%m%d_%H%M%S")`, with the
 * clock reading given as a parameter, and the backup file name built from it.
 */
module Timestamps {
  import opened Text

  datatype Timestamp = Timestamp(year: int, month: int, day: int, hour: int, minute: int, second: int)

  /** The ranges `datetime` admits for its fields. */
  predicate Valid(t: Timestamp)
  {
    && 1 <= t.year <= 9999 && 1 <= t.month <= 12 && 1 <= t.day <= 31
    && 0 <= t.hour <= 23 && 0 <= t.minute <= 59 && 0 <= t.second <= 59
  }

  function Pow10(k: nat): nat
  {
    if k == 0 then 1 else 10 * Pow10(k - 1)
  }

  predicate AllDigits(s: string)
  {
    forall i :: 0 <= i < |s| ==> IsDigit(s[i])
  }

  /** `n` in decimal, zero-padded (or cut) to `width` digits, as `%02d` and `%04d` print in range. */
  function Digits(n: nat, width: nat): (r: string)
    ensures |r| == width && AllDigits(r)
  {
    if width == 0 then "" else Digits(n / 10, width - 1) + [('0' as int + n % 10) as char]
  }

  /** The number a string of decimal digits denotes. */
  function Value(s: string): nat
    requires AllDigits(s)
  {
    if s == [] then 0 else 10 * Value(s[..|s| - 1]) + (s[|s| - 1] as int - '0' as int)
  }

  /** Reading back the digits gives the number, when it fits the width. */
  lemma {:induction false} DigitsValue(n: nat, width: nat)
    requires n < Pow10(width)
    ensures Value(Digits(n, width)) == n
  {
    if width > 0 {
      var d := Digits(n, width);
      assert d[..|d| - 1] == Digits(n / 10, width - 1);
      DigitsValue(n / 10, width - 1);
    }
  }

  /** The stamp text "YYYYMMDD_HHMMSS". */
  function Format(t: Timestamp): (r: string)
    requires Valid(t)
    ensures |r| == 15 && r[8] == '_'
    ensures AllDigits(r[..8]) && AllDigits(r[9..])
  {
    var r := Digits(t.year, 4) + Digits(t.month, 2) + Digits(t.day, 2) + "_"
      + Digits(t.hour, 2) + Digits(t.minute, 2) + Digits(t.second, 2);
    assert r[..8] == Digits(t.year, 4) + Digits(t.month, 2) + Digits(t.day, 2);
    assert r[9..] == Digits(t.hour, 2) + Digits(t.minute, 2) + Digits(t.second, 2);
    r
  }

  /** Different clock readings give different stamps. */
  lemma FormatInjective(t1: Timestamp, t2: Timestamp)
    requires Valid(t1) && Valid(t2)
    requires Format(t1) == Format(t2)
    ensures t1 == t2
  {
    var r1, r2 := Format(t1), Format(t2);
    assert r1[0..4] == Digits(t1.year, 4) && r2[0..4] == Digits(t2.year, 4);
    assert r1[4..6] == Digits(t1.month, 2) && r2[4..6] == Digits(t2.month, 2);
    assert r1[6..8] == Digits(t1.day, 2) && r2[6..8] == Digits(t2.day, 2);
    assert r1[9..11] == Digits(t1.hour, 2) && r2[9..11] == Digits(t2.hour, 2);
    assert r1[11..13] == Digits(t1.minute, 2) && r2[11..13] == Digits(t2.minute, 2);
    assert r1[13..15] == Digits(t1.second, 2) && r2[13..15] == Digits(t2.second, 2);
    assert Pow10(2) == 100 && Pow10(4) == 10000;
    DigitsValue(t1.year, 4); DigitsValue(t2.year, 4);
    DigitsValue(t1.month, 2); DigitsValue(t2.month, 2);
    DigitsValue(t1.day, 2); DigitsValue(t2.day, 2);
    DigitsValue(t1.hour, 2); DigitsValue(t2.hour, 2);
    DigitsValue(t1.minute, 2); DigitsValue(t2.minute, 2);
    DigitsValue(t1.second, 2); DigitsValue(t2.second, 2);
  }

  /** `f"{path.name}.{timestamp}.bak"`. */
  function BackupName(name: string, t: Timestamp): (r: string)
    requires Valid(t)
    ensures |r| == |name| + 20 && r[..|name|] == name && r[|r| - 4..] == ".bak"
  {
    name + "." + Format(t) + ".bak"
  }

  /** The backup name determines both the original name and the stamp. */
  lemma BackupNameInjective(n1: string, t1: Timestamp, n2: string, t2: Timestamp)
    requires Valid(t1) && Valid(t2)
    requires BackupName(n1, t1) == BackupName(n2, t2)
    ensures n1 == n2 && t1 == t2
  {
    var r := BackupName(n1, t1);
    assert n1 == r[..|r| - 20] == n2;
    assert Format(t1) == r[|n1| + 1..|n1| + 16] == Format(t2);
    FormatInjective(t1, t2);
  }
}
