/**
 * `getElapsedTime` of public/app.js: the time since the session started,
 * shown as `MM:SS`, each field written in decimal and padded with zeros to at
 * least two characters.
 */
module ElapsedTime {
  import opened Wrappers

  predicate IsDigit(c: char) {
    '0' <= c <= '9'
  }

  function DigitChar(d: int): (c: char)
    requires 0 <= d < 10
    ensures IsDigit(c)
  {
    "0123456789"[d]
  }

  function DigitValue(c: char): (d: nat)
    requires IsDigit(c)
    ensures d < 10
  {
    c as int - '0' as int
  }

  /** `n.toString()` for a non-negative integer. */
  function NatToDecimal(n: nat): (s: string)
    ensures 1 <= |s|
    ensures forall i :: 0 <= i < |s| ==> IsDigit(s[i])
    decreases n
  {
    if n < 10 then [DigitChar(n)] else NatToDecimal(n / 10) + [DigitChar(n % 10)]
  }

  /** `i.toString()` for any integer. */
  function IntToString(i: int): string {
    if i < 0 then "-" + NatToDecimal(-i) else NatToDecimal(i)
  }

  /** The number a string of decimal digits denotes (leading zeros allowed). */
  function DecimalValue(s: string): nat
    requires forall i :: 0 <= i < |s| ==> IsDigit(s[i])
  {
    if s == [] then 0 else 10 * DecimalValue(s[..|s| - 1]) + DigitValue(s[|s| - 1])
  }

  /** `s.padStart(2, "0")`. */
  function PadStart2(s: string): (r: string)
    ensures |r| == if |s| < 2 then 2 else |s|
    ensures r[|r| - |s|..] == s
  {
    if |s| == 0 then "00" else if |s| == 1 then "0" + s else s
  }

  /** JavaScript's `%`, whose result takes the sign of the dividend. */
  function JsRemainder(a: int, b: int): (r: int)
    requires b > 0
    ensures a >= 0 ==> 0 <= r < b
    ensures a < 0 ==> -b < r <= 0
    ensures (a - r) % b == 0
  {
    if a >= 0 then
      MultipleMod(b, a / b);
      a % b
    else
      var m := (-a) % b;
      assert a + m == b * -((-a) / b);
      MultipleMod(b, -((-a) / b));
      -m
  }

  /** A multiple of `b` leaves no remainder. */
  lemma MultipleMod(b: int, k: int)
    requires b > 0
    ensures (b * k) % b == 0
  {
    var q, m := (b * k) / b, (b * k) % b;
    assert b * (k - q) == m;
    MultipleSign(b, k - q);
  }

  /** A nonzero multiple of `b` is at least `b` away from zero. */
  lemma MultipleSign(b: int, d: int)
    requires b > 0
    ensures d >= 1 ==> b * d >= b
    ensures d <= -1 ==> b * d <= -b
  {
    if d >= 1 {
      assert b * d == b + b * (d - 1);
    } else if d <= -1 {
      assert b * d == -b - b * (-d - 1);
    }
  }

  /** The clock text for a session that started at `start` (ms), read at
      `now` (ms). A missing or zero start is falsy in the source. */
  function ElapsedClock(start: Option<int>, now: int): string {
    if start.None? || start.value == 0 then "00:00"
    else
      var elapsed := now - start.value;
      // Math.floor(x / k) for k > 0 is Dafny's `/` on int
      PadStart2(IntToString(elapsed / 60000)) + ":" + PadStart2(IntToString(JsRemainder(elapsed, 60000) / 1000))
  }

  lemma {:induction false} DecimalRoundTrip(n: nat)
    ensures DecimalValue(NatToDecimal(n)) == n
    decreases n
  {
    var s := NatToDecimal(n);
    if n >= 10 {
      DecimalRoundTrip(n / 10);
      assert s[..|s| - 1] == NatToDecimal(n / 10);
    }
  }

  lemma {:induction false} LeadingZero(s: string)
    requires forall i :: 0 <= i < |s| ==> IsDigit(s[i])
    ensures DecimalValue("0" + s) == DecimalValue(s)
    decreases |s|
  {
    if s != [] {
      LeadingZero(s[..|s| - 1]);
      assert ("0" + s)[..|s|] == "0" + s[..|s| - 1];
    }
  }

  /** A padded field reads back as the number it was written from. */
  lemma PaddedRoundTrip(n: nat)
    ensures var p := PadStart2(NatToDecimal(n));
      2 <= |p| && (forall i :: 0 <= i < |p| ==> IsDigit(p[i])) && DecimalValue(p) == n
  {
    var s := NatToDecimal(n);
    DecimalRoundTrip(n);
    if |s| == 1 {
      LeadingZero(s);
    }
  }

  /** Whole minutes and the seconds left over add up to the whole seconds. */
  lemma ClockArithmetic(e: nat)
    ensures e % 60000 / 1000 < 60
    ensures e / 60000 * 60 + e % 60000 / 1000 == e / 1000
  {
    var q, r := e / 60000, e % 60000;
    var s, t := r / 1000, r % 1000;
    assert r == 1000 * s + t;
    assert e == 1000 * (60 * q + s) + t;
  }

  /** Reading a clock text back: minutes before the colon, two-digit seconds after. */
  function ParseClock(r: string): (int, int)
    requires |r| >= 3
    requires forall i :: 0 <= i < |r| && i != |r| - 3 ==> IsDigit(r[i])
  {
    (DecimalValue(r[..|r| - 3]), DecimalValue(r[|r| - 2..]))
  }

  lemma TwoDigits(n: nat)
    requires n < 100
    ensures |NatToDecimal(n)| <= 2
  {
    if n >= 10 {
      assert |NatToDecimal(n / 10)| == 1;
    }
  }

  lemma ClockShape(m: string, sc: string)
    requires |m| >= 2 && |sc| == 2
    requires forall i :: 0 <= i < |m| ==> IsDigit(m[i])
    requires forall i :: 0 <= i < |sc| ==> IsDigit(sc[i])
    ensures var r := m + ":" + sc;
      |r| >= 5 && r[|r| - 3] == ':' &&
      (forall i :: 0 <= i < |r| && i != |r| - 3 ==> IsDigit(r[i])) &&
      ParseClock(r) == (DecimalValue(m), DecimalValue(sc))
  {
    var r := m + ":" + sc;
    forall i | 0 <= i < |r| && i != |r| - 3 ensures IsDigit(r[i]) {
      if i < |m| {
        assert r[i] == m[i];
      } else {
        assert r[i] == sc[i - |m| - 1];
      }
    }
    assert r[..|r| - 3] == m;
    assert r[|r| - 2..] == sc;
  }

  /** Minutes and seconds written as the clock writes them. */
  function ClockText(mins: nat, secs: nat): string {
    PadStart2(NatToDecimal(mins)) + ":" + PadStart2(NatToDecimal(secs))
  }

  lemma ClockTextParses(mins: nat, secs: nat)
    requires secs < 60
    ensures var r := ClockText(mins, secs);
      |r| >= 5 && r[|r| - 3] == ':' &&
      (forall i :: 0 <= i < |r| && i != |r| - 3 ==> IsDigit(r[i])) &&
      ParseClock(r) == (mins, secs)
  {
    PaddedRoundTrip(mins);
    PaddedRoundTrip(secs);
    TwoDigits(secs);
    ClockShape(PadStart2(NatToDecimal(mins)), PadStart2(NatToDecimal(secs)));
  }

  lemma NonNegativeToString(i: int)
    requires i >= 0
    ensures IntToString(i) == NatToDecimal(i)
  {
  }

  lemma ElapsedIsClockText(start: int, now: int)
    requires start != 0 && now >= start
    ensures var e := now - start;
      ElapsedClock(Some(start), now) == ClockText(e / 60000, e % 60000 / 1000)
  {
    var e := now - start;
    var mins, rest := e / 60000, JsRemainder(e, 60000);
    assert rest == e % 60000;
    assert ElapsedClock(Some(start), now) == PadStart2(IntToString(mins)) + ":" + PadStart2(IntToString(rest / 1000));
    NonNegativeToString(mins);
    NonNegativeToString(rest / 1000);
  }

  /** For a started session and a non-negative elapsed time, the clock has
      at least two minute digits, a colon and two second digits; seconds lie
      in 0..59 and minutes * 60 + seconds is the whole seconds elapsed. */
  lemma ClockFields(start: int, now: int)
    requires start != 0 && now >= start
    ensures var r := ElapsedClock(Some(start), now);
      |r| >= 5 && r[|r| - 3] == ':' &&
      (forall i :: 0 <= i < |r| && i != |r| - 3 ==> IsDigit(r[i])) &&
      0 <= ParseClock(r).1 < 60 && ParseClock(r).0 * 60 + ParseClock(r).1 == (now - start) / 1000
  {
    var e := now - start;
    ClockArithmetic(e);
    ElapsedIsClockText(start, now);
    ClockTextParses(e / 60000, e % 60000 / 1000);
  }

  /** With no start time the clock reads `00:00`, zero minutes and zero seconds. */
  lemma NoStartClock(now: int)
    ensures ElapsedClock(None, now) == "00:00"
    ensures ParseClock(ElapsedClock(None, now)) == (0, 0)
  {
    assert "00" + ":" + "00" == "00:00";
    ClockShape("00", "00");
    assert "00"[..1] == "0" && "0"[..0] == "";
    assert DecimalValue("00") == 0;
  }

  /** Read at the instant the timer starts, the clock shows `00:00`. */
  lemma ClockAtStart(t: int)
    ensures ElapsedClock(Some(t), t) == "00:00"
  {
    if t != 0 {
      assert IntToString(0) == "0";
      assert PadStart2("0") == "00";
      assert "00" + ":" + "00" == "00:00";
    }
  }
}
