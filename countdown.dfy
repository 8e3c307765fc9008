/**
 * The countdown on the home page: a millisecond difference split into days, hours,
 * minutes and seconds, each shown with at least two digits. The difference is a
 * parameter here; the page computes it from the clock once a second.
 */
module Countdown {
  import opened Text

  datatype TimeLeft = TimeLeft(days: int, hours: int, minutes: int, seconds: int)

  const MsPerSecond := 1000
  const MsPerHour := 60 * 60 * 1000
  const MsPerDay := 24 * 60 * 60 * 1000

  /**
   * `calculateTimeLeft`. For a positive whole number of milliseconds,
   * `Math.floor((d / k) % m)` equals `(d / k) % m` on integers.
   */
  function CalculateTimeLeft(difference: int): (t: TimeLeft)
    ensures difference <= 0 ==> t == TimeLeft(0, 0, 0, 0)
    ensures difference > 0 ==> t.days >= 0 && 0 <= t.hours < 24 && 0 <= t.minutes < 60 && 0 <= t.seconds < 60
    ensures difference > 0 ==> t.days == difference / 86400000
  {
    if difference > 0 then
      TimeLeft(difference / MsPerDay, (difference / MsPerHour) % 24,
               (difference / MsPerSecond / 60) % 60, (difference / MsPerSecond) % 60)
    else
      TimeLeft(0, 0, 0, 0)
  }

  /** Split a positive difference: the parts add back up to its whole seconds. */
  lemma Reconstruction(difference: int)
    requires difference > 0
    ensures var t := CalculateTimeLeft(difference);
      t.days * 86400 + t.hours * 3600 + t.minutes * 60 + t.seconds == difference / 1000
  {
    var s := difference / 1000;
    var m := s / 60;
    var h := m / 60;
    assert difference / 3600000 == h by {
      ConstantSplit(difference, 1000, 3600);
      ConstantSplit(s, 60, 60);
    }
    assert difference / 86400000 == h / 24 by {
      ConstantSplit(difference, 1000, 86400);
      ConstantSplit(s, 60, 1440);
      ConstantSplit(m, 60, 24);
    }
  }

  /** `a / (b * c) == a / b / c`, proved by the remainder of each division. */
  lemma ConstantSplit(a: nat, b: nat, c: nat)
    requires b > 0 && c > 0
    ensures a / (b * c) == a / b / c
  {
    var p, r := a / b, a % b;
    var q, y := p / c, p % c;
    DivMod(a, b);
    DivMod(p, c);
    Regroup(a, p, r, q, y, b, c);
    MulBelow(y, c, b);
    QuotientOf(a, b * c, q, y * b + r);
  }

  lemma DivMod(a: nat, b: nat)
    requires b > 0
    ensures a == a / b * b + a % b && 0 <= a % b < b && a / b >= 0
  {
  }

  /** `a = p*b + r` and `p = q*c + y` give `a = q*(b*c) + (y*b + r)`. */
  lemma Regroup(a: nat, p: nat, r: nat, q: nat, y: nat, b: nat, c: nat)
    requires a == p * b + r && p == q * c + y
    ensures a == q * (b * c) + (y * b + r)
  {
    MulDistributes(q * c, y, b);
    MulAssoc(q, c, b);
  }

  lemma MulAssoc(x: int, y: int, z: int)
    ensures x * y * z == x * (z * y)
  {
  }

  lemma MulDistributes(x: int, y: int, z: int)
    ensures (x + y) * z == x * z + y * z
  {
  }

  /** `y < c` gives `y * b + r < b * c` for a remainder `r < b`. */
  lemma MulBelow(y: nat, c: nat, b: nat)
    requires y < c && b > 0
    ensures y * b + b <= b * c
  {
    MulAtLeast(c - y, b);
    MulDistributes(c - y, y, b);
  }

  lemma {:induction false} MulAtLeast(k: nat, b: nat)
    requires k >= 1
    ensures k * b >= b
    decreases k
  {
    if k > 1 {
      MulAtLeast(k - 1, b);
      MulDistributes(k - 1, 1, b);
    }
  }

  lemma QuotientOf(a: nat, d: nat, q: nat, x: nat)
    requires d > 0 && x < d && a == q * d + x
    ensures a / d == q
  {
    var q0 := a / d;
    assert a == q0 * d + a % d;
    if q0 > q {
      MulAtLeast(q0 - q, d);
      MulDistributes(q0 - q, q, d);
    } else if q0 < q {
      MulAtLeast(q - q0, d);
      MulDistributes(q - q0, q0, d);
    }
  }

  /** `String(n).padStart(2, "0")` for one field. */
  function FieldText(n: int): string {
    PadStart2(IntToString(n))
  }

  /** The timer's text: days, then hours, minutes and seconds. */
  function Display(t: TimeLeft): string {
    FieldText(t.days) + " D : " + FieldText(t.hours) + " : " + FieldText(t.minutes) + " : " + FieldText(t.seconds)
  }

  /** A field below ten gains one leading '0'; a larger one is shown in full; either reads back as itself. */
  lemma FieldTextShape(n: nat)
    ensures |FieldText(n)| >= 2
    ensures n < 10 ==> FieldText(n) == ['0', DigitChar(n)]
    ensures n >= 10 ==> FieldText(n) == NatToString(n)
    ensures AllDigits(FieldText(n)) && ParseNat(FieldText(n)) == n
  {
    PaddedNumber(n);
  }

  /** Past the target the timer shows all zeros. */
  lemma ExpiredShowsZeros(difference: int)
    requires difference <= 0
    ensures Display(CalculateTimeLeft(difference)) == "00 D : 00 : 00 : 00"
  {
    assert NatToString(0) == "0";
    assert IntToString(0) == "0";
    assert PadStart2("0") == "00";
    var t := CalculateTimeLeft(difference);
    assert t == TimeLeft(0, 0, 0, 0);
    assert FieldText(t.days) == "00" && FieldText(t.hours) == "00";
    assert FieldText(t.minutes) == "00" && FieldText(t.seconds) == "00";
  }

  /** The hour, minute and second fields of a running timer are exactly two characters. */
  lemma RunningFieldsTwoWide(difference: int)
    requires difference > 0
    ensures var t := CalculateTimeLeft(difference);
      |FieldText(t.hours)| == 2 && |FieldText(t.minutes)| == 2 && |FieldText(t.seconds)| == 2
  {
  }
}
