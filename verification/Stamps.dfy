/** How the browser orders time stamps.  `updated_at` reaches `frontend/src/state/AppState.tsx` as text:
    date and time to the second, the six digits of the microsecond unless it is zero, and `Z`; the
    reducer compares that text. */
module Stamps {
  /** Time in microseconds, as in `Store`. */
  type Time = int

  const SECOND: int := 1_000_000

  /** Where a stamp stands in the order of the text: one on the whole second comes after all others of
      its second. */
  function TextOrder(t: Time): int {
    if t % SECOND == 0 then t + SECOND else t
  }

  /** Different stamps have different text, and the text is out of time order exactly for two stamps
      of one second of which one is on the whole second. */
  lemma TextOrderExact(a: Time, b: Time)
    ensures TextOrder(a) == TextOrder(b) <==> a == b
    ensures (a < b <==> TextOrder(a) < TextOrder(b)) <==>
              !(a != b && a / SECOND == b / SECOND && (a % SECOND == 0 || b % SECOND == 0))
  {
  }

  // ----- the text itself -----

  /** JavaScript's `<` on strings. */
  predicate Less(a: string, b: string) {
    b != "" && (a == "" || a[0] < b[0] || (a[0] == b[0] && Less(a[1..], b[1..])))
  }

  function Digit(n: nat): char
    requires n < 10
  {
    "0123456789"[n]
  }

  /** The last `width` decimal digits of `n`. */
  function Digits(n: nat, width: nat): (s: string)
    ensures |s| == width
  {
    if width == 0 then "" else Digits(n / 10, width - 1) + [Digit(n % 10)]
  }

  function PowerOfTen(n: nat): nat {
    if n == 0 then 1 else 10 * PowerOfTen(n - 1)
  }

  /** `calendar` renders the seconds from `lo` to `hi` in a fixed width and in time order, as dates of
      four-digit years are. */
  ghost predicate IsCalendar(calendar: int -> string, lo: int, hi: int) {
    forall s, t | lo <= s < hi && lo <= t < hi ::
      |calendar(s)| == |calendar(t)| && (s < t ==> Less(calendar(s), calendar(t)))
  }

  function Fraction(micro: nat): string {
    if micro == 0 then "Z" else "." + Digits(micro, 6) + "Z"
  }

  function Rendered(t: Time, calendar: int -> string): string {
    calendar(t / SECOND) + Fraction(t % SECOND)
  }

  lemma {:induction false} LessIrreflexive(a: string)
    ensures !Less(a, a)
  {
    if a != "" { LessIrreflexive(a[1..]); }
  }

  lemma {:induction false} LessAntisymmetric(a: string, b: string)
    requires Less(a, b)
    ensures !Less(b, a)
  {
    if a != "" && a[0] == b[0] { LessAntisymmetric(a[1..], b[1..]); }
  }

  lemma {:induction false} LessAfterSame(p: string, x: string, y: string)
    ensures Less(p + x, p + y) <==> Less(x, y)
  {
    if p == "" {
      assert p + x == x && p + y == y;
    } else {
      assert (p + x)[1..] == p[1..] + x && (p + y)[1..] == p[1..] + y;
      LessAfterSame(p[1..], x, y);
    }
  }

  lemma {:induction false} LessAtFirst(p: string, q: string, x: string, y: string)
    requires |p| == |q| && Less(p, q)
    ensures Less(p + x, q + y)
  {
    assert (p + x)[0] == p[0] && (q + y)[0] == q[0];
    if p[0] == q[0] {
      assert (p + x)[1..] == p[1..] + x && (q + y)[1..] == q[1..] + y;
      LessAtFirst(p[1..], q[1..], x, y);
    }
  }

  lemma {:induction false} DigitsInOrder(m: nat, n: nat, width: nat)
    requires m < n < PowerOfTen(width)
    ensures Less(Digits(m, width), Digits(n, width))
  {
    var p, q := Digits(m / 10, width - 1), Digits(n / 10, width - 1);
    if m / 10 < n / 10 {
      DigitsInOrder(m / 10, n / 10, width - 1);
      LessAtFirst(p, q, [Digit(m % 10)], [Digit(n % 10)]);
    } else {
      LessAfterSame(p, [Digit(m % 10)], [Digit(n % 10)]);
    }
  }

  lemma SixDigits()
    ensures PowerOfTen(6) == SECOND
  {
    assert PowerOfTen(3) == 1000;
  }

  lemma FractionsInOrder(m: nat, n: nat)
    requires m < SECOND && n < SECOND
    ensures Less(Fraction(m), Fraction(n)) <==> m != n && m != 0 && (n == 0 || m < n)
  {
    SixDigits();
    if m == n {
      LessIrreflexive(Fraction(m));
    } else if m != 0 && n != 0 {
      NonzeroFractions(m, n);
      NonzeroFractions(n, m);
    } else if m == 0 {
      assert Fraction(n)[0] == '.';
    } else {
      assert Fraction(m)[0] == '.';
    }
  }

  lemma NonzeroFractions(m: nat, n: nat)
    requires 0 < m < SECOND && 0 < n < SECOND && PowerOfTen(6) == SECOND
    ensures m < n ==> Less(Fraction(m), Fraction(n)) && !Less(Fraction(n), Fraction(m))
  {
    if m < n {
      DigitsInOrder(m, n, 6);
      LessAtFirst(Digits(m, 6), Digits(n, 6), "Z", "Z");
      LessAfterSame(".", Digits(m, 6) + "Z", Digits(n, 6) + "Z");
      assert Fraction(m) == "." + (Digits(m, 6) + "Z") && Fraction(n) == "." + (Digits(n, 6) + "Z");
      LessAntisymmetric(Fraction(m), Fraction(n));
    }
  }

  lemma SameSecond(a: Time, b: Time)
    requires a / SECOND == b / SECOND
    ensures TextOrder(a) < TextOrder(b) <==>
              var m, n := a % SECOND, b % SECOND; m != n && m != 0 && (n == 0 || m < n)
  {
  }

  lemma EarlierSecond(a: Time, b: Time)
    requires a / SECOND < b / SECOND
    ensures TextOrder(a) < TextOrder(b)
  {
  }

  /** The comparison of two rendered stamps is the comparison of their places in the text order. */
  lemma RenderedInTextOrder(a: Time, b: Time, calendar: int -> string, lo: int, hi: int)
    requires IsCalendar(calendar, lo, hi) && lo <= a / SECOND < hi && lo <= b / SECOND < hi
    ensures Less(Rendered(a, calendar), Rendered(b, calendar)) <==> TextOrder(a) < TextOrder(b)
  {
    var s, t := a / SECOND, b / SECOND;
    if s == t {
      LessAfterSame(calendar(s), Fraction(a % SECOND), Fraction(b % SECOND));
      FractionsInOrder(a % SECOND, b % SECOND);
      SameSecond(a, b);
    } else if s < t {
      LessAtFirst(calendar(s), calendar(t), Fraction(a % SECOND), Fraction(b % SECOND));
      EarlierSecond(a, b);
    } else {
      LessAtFirst(calendar(t), calendar(s), Fraction(b % SECOND), Fraction(a % SECOND));
      LessAntisymmetric(Rendered(b, calendar), Rendered(a, calendar));
      EarlierSecond(b, a);
    }
  }

  /** Such calendars exist: seconds in twelve digits are one. */
  lemma DigitsAreACalendar(calendar: int -> string)
    requires forall s: int | 0 <= s < PowerOfTen(12) :: calendar(s) == Digits(s, 12)
    ensures IsCalendar(calendar, 0, PowerOfTen(12))
  {
    forall s, t | 0 <= s < PowerOfTen(12) && 0 <= t < PowerOfTen(12)
      ensures |calendar(s)| == |calendar(t)| && (s < t ==> Less(calendar(s), calendar(t)))
    {
      if s < t { DigitsInOrder(s, t, 12); }
    }
  }

  /** So the hypothesis on calendars can be met, and with this one the text order is the whole story. */
  lemma RenderedWithDigits(a: Time, b: Time)
    requires 0 <= a / SECOND < PowerOfTen(12) && 0 <= b / SECOND < PowerOfTen(12)
    ensures var calendar := (s: int) => if s < 0 then "" else Digits(s, 12);
            Less(Rendered(a, calendar), Rendered(b, calendar)) <==> TextOrder(a) < TextOrder(b)
  {
    var calendar := (s: int) => if s < 0 then "" else Digits(s, 12);
    DigitsAreACalendar(calendar);
    RenderedInTextOrder(a, b, calendar, 0, PowerOfTen(12));
  }
}
