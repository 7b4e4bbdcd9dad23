/**
  The identifiers of recovery points: UTC time stamps printed with fixed widths
  (backend/backup/backup_service.go:119), compared as text (backend/backup/reconciliation.go:548-557).
 */
module RecoveryId {
  import opened Order

  /** A UTC time with a four-digit year, down to the nanosecond. */
  datatype Time = Time(year: nat, month: nat, day: nat, hour: nat, minute: nat, second: nat, nano: nat)

  predicate Valid(t: Time) {
    && t.year < 10000 && 1 <= t.month <= 12 && 1 <= t.day <= 31
    && t.hour < 24 && t.minute < 60 && t.second < 60 && t.nano < 1_000_000_000
  }

  function Pow10(w: nat): (p: nat)
    ensures p > 0
  {
    if w == 0 then 1 else 10 * Pow10(w - 1)
  }

  function Digit(n: nat): (c: char)
    requires n < 10
  {
    "0123456789"[n]
  }

  /** `n` in decimal, with leading zeros up to `w` digits. */
  function Digits(n: nat, w: nat): (s: string)
    requires n < Pow10(w)
    ensures |s| == w
  {
    if w == 0 then [] else Digits(n / 10, w - 1) + [Digit(n % 10)]
  }

  lemma DigitOrder(m: nat, n: nat)
    requires m < 10 && n < 10
    ensures Digit(m) < Digit(n) <==> m < n
    ensures Digit(m) == Digit(n) <==> m == n
  {
    assert Digit(m) as int == '0' as int + m && Digit(n) as int == '0' as int + n;
  }

  /** Text of equal length is compared part by part. */
  lemma {:induction false} LessConcat(a: string, c: string, b: string, d: string)
    requires |a| == |b|
    ensures Less(a + c, b + d) <==> Less(a, b) || (a == b && Less(c, d))
  {
    if a == [] {
      assert a + c == c && b + d == d;
      LessIrreflexive(a);
    } else {
      assert (a + c)[1..] == a[1..] + c && (b + d)[1..] == b[1..] + d;
      LessConcat(a[1..], c, b[1..], d);
      assert a == [a[0]] + a[1..] && b == [b[0]] + b[1..];
    }
  }

  lemma {:induction false} DigitsOrder(m: nat, n: nat, w: nat)
    requires m < Pow10(w) && n < Pow10(w)
    ensures Less(Digits(m, w), Digits(n, w)) <==> m < n
    ensures Digits(m, w) == Digits(n, w) <==> m == n
  {
    if w > 0 {
      DigitsOrder(m / 10, n / 10, w - 1);
      DigitOrder(m % 10, n % 10);
      LessConcat(Digits(m / 10, w - 1), [Digit(m % 10)], Digits(n / 10, w - 1), [Digit(n % 10)]);
      OneDigit(Digit(m % 10), Digit(n % 10));
      var p, q := Digits(m, w), Digits(n, w);
      assert p[..w - 1] == Digits(m / 10, w - 1) && p[w - 1] == Digit(m % 10);
      assert q[..w - 1] == Digits(n / 10, w - 1) && q[w - 1] == Digit(n % 10);
    }
  }

  lemma OneDigit(c: char, d: char)
    ensures Less([c], [d]) <==> c < d
  {
  }

  /** The layout 20060102T150405.000000000Z. */
  function Id(t: Time): string
    requires Valid(t)
  {
    Widths();
    Digits(t.year, 4) + (Digits(t.month, 2) + (Digits(t.day, 2) + ("T" + (Digits(t.hour, 2) + (Digits(t.minute, 2)
      + (Digits(t.second, 2) + ("." + (Digits(t.nano, 9) + "Z"))))))))
  }

  lemma Widths()
    ensures Pow10(2) == 100 && Pow10(4) == 10000 && Pow10(9) == 1_000_000_000
  {
    assert Pow10(5) == 100000;
    assert Pow10(7) == 10000000;
  }

  /** Earlier in time. */
  predicate Before(s: Time, t: Time) {
    || s.year < t.year
    || (s.year == t.year && (|| s.month < t.month
    || (s.month == t.month && (|| s.day < t.day
    || (s.day == t.day && (|| s.hour < t.hour
    || (s.hour == t.hour && (|| s.minute < t.minute
    || (s.minute == t.minute && (|| s.second < t.second
    || (s.second == t.second && s.nano < t.nano)))))))))))
  }

  /** One more field in front. */
  lemma FieldOrder(m: nat, n: nat, w: nat, c: string, d: string)
    requires m < Pow10(w) && n < Pow10(w)
    ensures Less(Digits(m, w) + c, Digits(n, w) + d) <==> m < n || (m == n && Less(c, d))
  {
    DigitsOrder(m, n, w);
    LessConcat(Digits(m, w), c, Digits(n, w), d);
  }

  lemma MarkOrder(mark: string, c: string, d: string)
    ensures Less(mark + c, mark + d) <==> Less(c, d)
  {
    LessConcat(mark, c, mark, d);
    LessIrreflexive(mark);
  }

  function Clock(t: Time): string
    requires Valid(t)
  {
    Widths();
    Digits(t.hour, 2) + (Digits(t.minute, 2) + (Digits(t.second, 2) + ("." + (Digits(t.nano, 9) + "Z"))))
  }

  lemma ClockOrder(s: Time, t: Time)
    requires Valid(s) && Valid(t)
    ensures Less(Clock(s), Clock(t)) <==>
              || s.hour < t.hour
              || (s.hour == t.hour && (|| s.minute < t.minute
              || (s.minute == t.minute && (|| s.second < t.second
              || (s.second == t.second && s.nano < t.nano)))))
  {
    hide Digits, Less;
    Widths();
    var n, n' := Digits(s.nano, 9) + "Z", Digits(t.nano, 9) + "Z";
    FieldOrder(s.nano, t.nano, 9, "Z", "Z");
    LessIrreflexive("Z");
    MarkOrder(".", n, n');
    var c, c' := Digits(s.second, 2) + ("." + n), Digits(t.second, 2) + ("." + n');
    FieldOrder(s.second, t.second, 2, "." + n, "." + n');
    FieldOrder(s.minute, t.minute, 2, c, c');
    FieldOrder(s.hour, t.hour, 2, Digits(s.minute, 2) + c, Digits(t.minute, 2) + c');
  }

  /** The order of identifiers is the order of time. */
  lemma IdOrderIsTimeOrder(s: Time, t: Time)
    requires Valid(s) && Valid(t)
    ensures Less(Id(s), Id(t)) <==> Before(s, t)
  {
    hide Digits, Less, Clock;
    Widths();
    ClockOrder(s, t);
    IdParts(s);
    IdParts(t);
    MarkOrder("T", Clock(s), Clock(t));
    var d, d' := Digits(s.day, 2) + ("T" + Clock(s)), Digits(t.day, 2) + ("T" + Clock(t));
    FieldOrder(s.day, t.day, 2, "T" + Clock(s), "T" + Clock(t));
    FieldOrder(s.month, t.month, 2, d, d');
    FieldOrder(s.year, t.year, 4, Digits(s.month, 2) + d, Digits(t.month, 2) + d');
  }

  lemma IdParts(t: Time)
    requires Valid(t)
    ensures Pow10(2) == 100 && Pow10(4) == 10000
    ensures Id(t) == Digits(t.year, 4) + (Digits(t.month, 2) + (Digits(t.day, 2) + ("T" + Clock(t))))
  {
    hide Digits;
    Widths();
  }

  /** The number a text of digits stands for. */
  function Number(s: string): int {
    if s == [] then 0 else 10 * Number(s[..|s| - 1]) + (s[|s| - 1] as int - '0' as int)
  }

  lemma {:induction false} NumberOfDigits(n: nat, w: nat)
    requires n < Pow10(w)
    ensures Number(Digits(n, w)) == n
  {
    if w > 0 {
      NumberOfDigits(n / 10, w - 1);
      NumberGrows(Digits(n / 10, w - 1), n % 10);
    }
  }

  lemma NumberGrows(s: string, d: nat)
    requires d < 10
    ensures Number(s + [Digit(d)]) == 10 * Number(s) + d
  {
    DigitIs(d);
    hide Digit;
    assert (s + [Digit(d)])[..|s|] == s;
  }

  lemma DigitIs(d: nat)
    requires d < 10
    ensures Digit(d) as int == '0' as int + d
  {
  }

  /** The field at the front of a text, and the rest. */
  lemma FrontField(n: nat, w: nat, rest: string)
    requires n < Pow10(w)
    ensures var s := Digits(n, w) + rest;
            |s| == w + |rest| && Number(s[..w]) == n && s[w..] == rest
  {
    NumberOfDigits(n, w);
    assert (Digits(n, w) + rest)[..w] == Digits(n, w);
  }

  /** A text cut at `a` and then, `b` further, is cut at the sum. */
  lemma CutAgain(s: string, a: nat, b: nat, c: nat)
    requires a + b <= a + c <= |s|
    ensures s[a..][b..c] == s[a + b..a + c]
  {
  }

  /** Every field of the time can be read from the identifier, in the layout 20060102T150405.000000000Z. */
  lemma IdReads(t: Time)
    requires Valid(t)
    ensures |Id(t)| == 26 && Id(t)[8] == 'T' && Id(t)[15] == '.' && Id(t)[25] == 'Z'
    ensures Number(Id(t)[0..4]) == t.year && Number(Id(t)[4..6]) == t.month && Number(Id(t)[6..8]) == t.day
    ensures Number(Id(t)[9..11]) == t.hour && Number(Id(t)[11..13]) == t.minute && Number(Id(t)[13..15]) == t.second
    ensures Number(Id(t)[16..25]) == t.nano
  {
    hide Digits, Number;
    Widths();
    IdParts(t);
    ClockReads(t);
    var c, s := Clock(t), Id(t);
    var d := Digits(t.day, 2) + ("T" + c);
    var m := Digits(t.month, 2) + d;
    FrontField(t.day, 2, "T" + c);
    FrontField(t.month, 2, d);
    FrontField(t.year, 4, m);
    assert s[4..] == m && m[2..] == d && d[2..] == "T" + c;
    CutAgain(s, 4, 0, 2);
    assert s[6..] == d;
    CutAgain(s, 6, 0, 2);
    assert s[8..] == "T" + c && s[8] == (s[8..])[0] && s[9..] == c;
    CutAgain(s, 9, 0, 2);
    CutAgain(s, 9, 2, 4);
    CutAgain(s, 9, 4, 6);
    CutAgain(s, 9, 7, 16);
    assert s[15] == c[6] && s[25] == c[16];
  }

  lemma ClockReads(t: Time)
    requires Valid(t)
    ensures var c := Clock(t);
            && |c| == 17 && c[6] == '.' && c[16] == 'Z'
            && Number(c[0..2]) == t.hour && Number(c[2..4]) == t.minute && Number(c[4..6]) == t.second
            && Number(c[7..16]) == t.nano
  {
    Widths();
    hide Digits, Number;
    var c := Clock(t);
    var n := Digits(t.nano, 9) + "Z";
    var s := Digits(t.second, 2) + ("." + n);
    var m := Digits(t.minute, 2) + s;
    FrontField(t.nano, 9, "Z");
    FrontField(t.second, 2, "." + n);
    FrontField(t.minute, 2, s);
    FrontField(t.hour, 2, m);
    assert c[2..] == m && m[2..] == s && s[2..] == "." + n;
    CutAgain(c, 2, 0, 2);
    assert c[4..] == s;
    CutAgain(c, 4, 0, 2);
    assert c[6..] == "." + n && c[6] == (c[6..])[0] && c[7..] == n;
    CutAgain(c, 7, 0, 9);
    assert n[9] == 'Z' && c[16] == n[9];
  }
}
