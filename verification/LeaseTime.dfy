/** Lease expiries are stored as UTC isoformat text, which leaves the fraction out when it is
    zero. A claim compares the texts, an owner check compares the instants
    (api/review_repository.py). */
module LeaseTime {
  import opened ReviewTypes
  import opened ReviewWorkflows

  type Text = seq<char>

  // Digits -----------------------------------------------------------------------------------

  function Digit(d: nat): char
    requires d < 10
  {
    ['0', '1', '2', '3', '4', '5', '6', '7', '8', '9'][d]
  }

  function Power(width: nat): (p: nat)
    ensures p >= 1
  {
    if width == 0 then 1 else 10 * Power(width - 1)
  }

  // n in exactly `width` digits.
  function Pad(n: nat, width: nat): (t: Text)
    ensures |t| == width
  {
    if width == 0 then [] else Pad(n / 10, width - 1) + [Digit(n % 10)]
  }

  // The order of texts: by code unit, a proper prefix first.
  predicate Less(a: Text, b: Text)
    decreases a
  {
    if b == [] then false
    else if a == [] then true
    else a[0] < b[0] || (a[0] == b[0] && Less(a[1..], b[1..]))
  }

  lemma {:induction false} EqualHeads(p: Text, a: Text, b: Text)
    ensures Less(p + a, p + b) <==> Less(a, b)
    decreases p
  {
    if p == [] {
      assert p + a == a && p + b == b;
    } else {
      assert (p + a)[1..] == p[1..] + a && (p + b)[1..] == p[1..] + b;
      EqualHeads(p[1..], a, b);
    }
  }

  // Texts of one length that differ decide the order, whatever follows.
  lemma {:induction false} DifferentHeads(p: Text, q: Text, a: Text, b: Text)
    requires |p| == |q| && p != q
    ensures Less(p + a, q + b) <==> Less(p, q)
    decreases p
  {
    assert (p + a)[1..] == p[1..] + a && (q + b)[1..] == q[1..] + b;
    if p[0] == q[0] {
      assert p == [p[0]] + p[1..] && q == [q[0]] + q[1..];
      DifferentHeads(p[1..], q[1..], a, b);
    }
  }

  lemma DigitsOrdered(d: nat, e: nat)
    requires d < 10 && e < 10
    ensures Digit(d) < Digit(e) <==> d < e
    ensures Digit(d) == Digit(e) <==> d == e
  {
  }

  lemma {:induction false} PadIsInjective(n: nat, m: nat, width: nat)
    requires n < Power(width) && m < Power(width)
    ensures Pad(n, width) == Pad(m, width) <==> n == m
  {
    if width > 0 {
      PadIsInjective(n / 10, m / 10, width - 1);
      DigitsOrdered(n % 10, m % 10);
      var p, q := Pad(n / 10, width - 1), Pad(m / 10, width - 1);
      if Pad(n, width) == Pad(m, width) {
        assert (p + [Digit(n % 10)])[..width - 1] == p && (q + [Digit(m % 10)])[..width - 1] == q;
        assert (p + [Digit(n % 10)])[width - 1] == (q + [Digit(m % 10)])[width - 1];
      }
    }
  }

  lemma {:induction false} PadKeepsOrder(n: nat, m: nat, width: nat)
    requires n < Power(width) && m < Power(width)
    ensures Less(Pad(n, width), Pad(m, width)) <==> n < m
  {
    if width > 0 {
      var p, q := Pad(n / 10, width - 1), Pad(m / 10, width - 1);
      PadIsInjective(n / 10, m / 10, width - 1);
      PadKeepsOrder(n / 10, m / 10, width - 1);
      DigitsOrdered(n % 10, m % 10);
      if n / 10 == m / 10 {
        EqualHeads(p, [Digit(n % 10)], [Digit(m % 10)]);
      } else {
        DifferentHeads(p, q, [Digit(n % 10)], [Digit(m % 10)]);
      }
    }
  }

  // A padded field followed by more text compares by the field first.
  lemma FieldOrder(n: nat, m: nat, width: nat, a: Text, b: Text)
    requires n < Power(width) && m < Power(width)
    ensures Less(Pad(n, width) + a, Pad(m, width) + b) <==> n < m || (n == m && Less(a, b))
  {
    PadIsInjective(n, m, width);
    PadKeepsOrder(n, m, width);
    if n == m { EqualHeads(Pad(n, width), a, b); } else { DifferentHeads(Pad(n, width), Pad(m, width), a, b); }
  }

  lemma MarkOrder(c: char, a: Text, b: Text)
    ensures Less([c] + a, [c] + b) <==> Less(a, b)
  {
    EqualHeads([c], a, b);
  }

  // Instants ---------------------------------------------------------------------------------

  predicate Leap(year: nat) {
    year % 4 == 0 && (year % 100 != 0 || year % 400 == 0)
  }

  function MonthLength(year: nat, month: nat): (n: nat)
    requires 1 <= month <= 12
    ensures 28 <= n <= 31
  {
    if month == 2 then (if Leap(year) then 29 else 28)
    else if month == 4 || month == 6 || month == 9 || month == 11 then 30
    else 31
  }

  function YearLength(year: nat): nat {
    if Leap(year) then 366 else 365
  }

  // A UTC datetime by its fields, which are in order of significance.
  datatype Stamp = Stamp(year: nat, month: nat, day: nat, hour: nat, minute: nat, second: nat, micro: nat)
  {
    predicate Valid() {
      1 <= year < 10000 && 1 <= month <= 12 && 1 <= day <= MonthLength(year, month) && hour < 24 && minute < 60 && second < 60 && micro < 1000000
    }
  }

  predicate Earlier(a: Stamp, b: Stamp) {
    || a.year < b.year || (a.year == b.year && (
       a.month < b.month || (a.month == b.month && (
       a.day < b.day || (a.day == b.day && (
       a.hour < b.hour || (a.hour == b.hour && (
       a.minute < b.minute || (a.minute == b.minute && (
       a.second < b.second || (a.second == b.second && a.micro < b.micro)))))))))))
  }

  // isoformat of an aware UTC datetime.
  function IsoFormat(t: Stamp): Text {
    Pad(t.year, 4) + (['-'] + (Pad(t.month, 2) + (['-'] + (Pad(t.day, 2) + (['T'] + Clock(t))))))
  }

  function Clock(t: Stamp): Text {
    Pad(t.hour, 2) + ([':'] + (Pad(t.minute, 2) + ([':'] + (Pad(t.second, 2) + Fraction(t.micro)))))
  }

  function Fraction(micro: nat): Text {
    if micro == 0 then "+00:00" else ['.'] + (Pad(micro, 6) + "+00:00")
  }

  lemma PowersOfTen()
    ensures Power(2) == 100 && Power(4) == 10000 && Power(6) == 1000000
  {
    assert Power(1) == 10 && Power(3) == 1000 && Power(5) == 100000;
  }

  // The offset sorts before the fraction: a whole second comes before every later part of it.
  lemma FractionOrder(m: nat, n: nat)
    requires m < 1000000 && n < 1000000
    ensures Less(Fraction(m), Fraction(n)) <==> m < n
  {
    PowersOfTen();
    if m > 0 && n > 0 {
      MarkOrder('.', Pad(m, 6) + "+00:00", Pad(n, 6) + "+00:00");
      FieldOrder(m, n, 6, "+00:00", "+00:00");
      Irreflexive("+00:00");
    } else if m == 0 && n == 0 {
      Irreflexive("+00:00");
    }
  }

  lemma {:induction false} Irreflexive(a: Text)
    ensures !Less(a, a)
    decreases a
  {
    if a != [] { Irreflexive(a[1..]); }
  }

  lemma {:induction false} LessIsTotal(a: Text, b: Text)
    ensures a == b || Less(a, b) || Less(b, a)
    decreases a
  {
    if a != [] && b != [] && a[0] == b[0] {
      assert a == [a[0]] + a[1..] && b == [b[0]] + b[1..];
      LessIsTotal(a[1..], b[1..]);
    }
  }

  lemma {:induction false} LessIsTransitive(a: Text, b: Text, c: Text)
    requires Less(a, b) && Less(b, c)
    ensures Less(a, c)
    decreases a
  {
    if a != [] && a[0] == b[0] && b[0] == c[0] { LessIsTransitive(a[1..], b[1..], c[1..]); }
  }

  lemma ClockOrder(a: Stamp, b: Stamp)
    requires a.Valid() && b.Valid()
    ensures Less(Clock(a), Clock(b)) <==>
      a.hour < b.hour || (a.hour == b.hour && (a.minute < b.minute || (a.minute == b.minute &&
        (a.second < b.second || (a.second == b.second && a.micro < b.micro)))))
  {
    PowersOfTen();
    FractionOrder(a.micro, b.micro);
    var s, t := Pad(a.second, 2) + Fraction(a.micro), Pad(b.second, 2) + Fraction(b.micro);
    FieldOrder(a.second, b.second, 2, Fraction(a.micro), Fraction(b.micro));
    MarkOrder(':', s, t);
    FieldOrder(a.minute, b.minute, 2, [':'] + s, [':'] + t);
    MarkOrder(':', Pad(a.minute, 2) + ([':'] + s), Pad(b.minute, 2) + ([':'] + t));
    FieldOrder(a.hour, b.hour, 2, [':'] + (Pad(a.minute, 2) + ([':'] + s)), [':'] + (Pad(b.minute, 2) + ([':'] + t)));
  }

  // Comparing the texts agrees with comparing the instants.
  lemma TextOrderIsTimeOrder(a: Stamp, b: Stamp)
    requires a.Valid() && b.Valid()
    ensures Less(IsoFormat(a), IsoFormat(b)) <==> Earlier(a, b)
  {
    PowersOfTen();
    ClockOrder(a, b);
    MarkOrder('T', Clock(a), Clock(b));
    var s, t := ['T'] + Clock(a), ['T'] + Clock(b);
    FieldOrder(a.day, b.day, 2, s, t);
    MarkOrder('-', Pad(a.day, 2) + s, Pad(b.day, 2) + t);
    var u, v := ['-'] + (Pad(a.day, 2) + s), ['-'] + (Pad(b.day, 2) + t);
    FieldOrder(a.month, b.month, 2, u, v);
    MarkOrder('-', Pad(a.month, 2) + u, Pad(b.month, 2) + v);
    FieldOrder(a.year, b.year, 4, ['-'] + (Pad(a.month, 2) + u), ['-'] + (Pad(b.month, 2) + v));
  }

  lemma EarlierIsTotal(a: Stamp, b: Stamp)
    ensures a == b || Earlier(a, b) || Earlier(b, a)
    ensures !(Earlier(a, b) && Earlier(b, a)) && !Earlier(a, a)
  {
  }

  // The microseconds since the first day of year 1, which is what an Instant counts.
  function DaysBeforeYear(year: nat): nat {
    if year <= 1 then 0 else DaysBeforeYear(year - 1) + YearLength(year - 1)
  }

  function DaysBeforeMonth(year: nat, month: nat): nat
    requires 1 <= month <= 12
  {
    if month == 1 then 0 else DaysBeforeMonth(year, month - 1) + MonthLength(year, month - 1)
  }

  function Day(t: Stamp): nat
    requires 1 <= t.month <= 12
  {
    DaysBeforeYear(t.year) + DaysBeforeMonth(t.year, t.month) + t.day
  }

  function ToInstant(t: Stamp): Instant
    requires 1 <= t.month <= 12
  {
    (((Day(t) * 24 + t.hour) * 60 + t.minute) * 60 + t.second) * 1000000 + t.micro
  }

  lemma {:induction false} YearsGrow(a: nat, b: nat)
    requires 1 <= a < b
    ensures DaysBeforeYear(a) + YearLength(a) <= DaysBeforeYear(b)
    decreases b - a
  {
    hide YearLength;
    if a + 1 < b { YearsGrow(a, b - 1); }
  }

  lemma {:induction false} MonthsGrow(year: nat, a: nat, b: nat)
    requires 1 <= a < b <= 12
    ensures DaysBeforeMonth(year, a) + MonthLength(year, a) <= DaysBeforeMonth(year, b)
    decreases b - a
  {
    if a + 1 < b { MonthsGrow(year, a, b - 1); }
  }

  lemma MonthsFillYear(year: nat)
    ensures DaysBeforeMonth(year, 12) + MonthLength(year, 12) == YearLength(year)
  {
    var february := MonthLength(year, 2);
    assert DaysBeforeMonth(year, 2) == 31;
    assert DaysBeforeMonth(year, 4) == february + 62;
    assert DaysBeforeMonth(year, 6) == february + 123;
    assert DaysBeforeMonth(year, 8) == february + 184;
    assert DaysBeforeMonth(year, 10) == february + 245;
    assert DaysBeforeMonth(year, 12) == february + 306;
  }

  lemma DateInYear(t: Stamp)
    requires t.Valid()
    ensures 1 <= DaysBeforeMonth(t.year, t.month) + t.day <= YearLength(t.year)
  {
    MonthsFillYear(t.year);
    if t.month < 12 { MonthsGrow(t.year, t.month, 12); }
  }

  lemma EarlierDay(a: Stamp, b: Stamp)
    requires a.Valid() && b.Valid()
    requires a.year < b.year || (a.year == b.year && (a.month < b.month || (a.month == b.month && a.day < b.day)))
    ensures Day(a) < Day(b)
  {
    DateInYear(a);
    DateInYear(b);
    if a.year < b.year { YearsGrow(a.year, b.year); }
    else if a.month < b.month { MonthsGrow(a.year, a.month, b.month); }
  }

  lemma EarlierInstant(a: Stamp, b: Stamp)
    requires a.Valid() && b.Valid() && Earlier(a, b)
    ensures ToInstant(a) < ToInstant(b)
  {
    if a.year == b.year && a.month == b.month && a.day == b.day {
      assert Day(a) == Day(b);
    } else {
      EarlierDay(a, b);
    }
    hide Day;
  }

  // The order of the fields is the order of instants.
  lemma EarlierIsLess(a: Stamp, b: Stamp)
    requires a.Valid() && b.Valid()
    ensures Earlier(a, b) <==> ToInstant(a) < ToInstant(b)
  {
    hide ToInstant, Earlier;
    EarlierIsTotal(a, b);
    if Earlier(a, b) { EarlierInstant(a, b); }
    if Earlier(b, a) { EarlierInstant(b, a); }
  }

  // The instants count every microsecond of the Gregorian calendar: the next one on the clock is the
  // next number.
  function Tick(t: Stamp): Stamp
    requires 1 <= t.month <= 12
  {
    if t.micro + 1 < 1000000 then t.(micro := t.micro + 1)
    else if t.second + 1 < 60 then t.(second := t.second + 1, micro := 0)
    else if t.minute + 1 < 60 then t.(minute := t.minute + 1, second := 0, micro := 0)
    else if t.hour + 1 < 24 then t.(hour := t.hour + 1, minute := 0, second := 0, micro := 0)
    else Midnight(t)
  }

  function Midnight(t: Stamp): Stamp
    requires 1 <= t.month <= 12
  {
    var last := if t.month in {4, 6, 9, 11} then 30 else if t.month != 2 then 31
                else if t.year % 400 == 0 || (t.year % 4 == 0 && t.year % 100 != 0) then 29 else 28;
    if t.day < last then Stamp(t.year, t.month, t.day + 1, 0, 0, 0, 0)
    else if t.month < 12 then Stamp(t.year, t.month + 1, 1, 0, 0, 0, 0)
    else Stamp(t.year + 1, 1, 1, 0, 0, 0, 0)
  }

  lemma TickIsNext(t: Stamp)
    requires t.Valid()
    ensures 1 <= Tick(t).month <= 12 && ToInstant(Tick(t)) == ToInstant(t) + 1
  {
    if t.micro + 1 == 1000000 && t.second == 59 && t.minute == 59 && t.hour == 23 { MidnightIsNext(t); }
    hide Day;
  }

  lemma MidnightIsNext(t: Stamp)
    requires t.Valid()
    ensures 1 <= Midnight(t).month <= 12 && Day(Midnight(t)) == Day(t) + 1
    ensures Midnight(t).hour == Midnight(t).minute == Midnight(t).second == Midnight(t).micro == 0
  {
    MonthsFillYear(t.year);
  }

  // The text of a stamp: the date, a T, the time, and a fraction only if there is one; always UTC.
  lemma IsoShape(t: Stamp)
    requires t.Valid()
    ensures var text := IsoFormat(t);
      && |text| == (if t.micro == 0 then 25 else 32)
      && text[4] == '-' && text[7] == '-' && text[10] == 'T' && text[13] == ':' && text[16] == ':'
      && text[|text| - 6..] == "+00:00" && (t.micro != 0 ==> text[19] == '.')
  {
    hide Pad;
  }

  // Leases -----------------------------------------------------------------------------------

  // lease_expires_at <= ? in the claim query
  predicate ClaimableAt(expires: Text, now: Text) {
    expires == now || Less(expires, now)
  }

  // expires_at > now in the owner check
  predicate ActiveAt(expires: Stamp, now: Stamp) {
    Earlier(now, expires)
  }

  // At every instant a stored lease is either claimable or active, and never both.
  lemma ClaimableOrActive(expires: Stamp, now: Stamp)
    requires expires.Valid() && now.Valid()
    ensures ClaimableAt(IsoFormat(expires), IsoFormat(now)) <==> !ActiveAt(expires, now)
  {
    TextOrderIsTimeOrder(expires, now);
    TextOrderIsTimeOrder(now, expires);
    EarlierIsTotal(expires, now);
    if IsoFormat(expires) == IsoFormat(now) { Irreflexive(IsoFormat(now)); }
  }

  // So a claim can take a lease over only once its last owner has lost it: no instant lets
  // both the old owner's writes and a new claim through.
  lemma NeverTwoOwners(expires: Stamp, claimedAt: Stamp, later: Stamp)
    requires expires.Valid() && claimedAt.Valid() && later.Valid()
    requires ClaimableAt(IsoFormat(expires), IsoFormat(claimedAt)) && !Earlier(later, claimedAt)
    ensures !ActiveAt(expires, later)
  {
    ClaimableOrActive(expires, claimedAt);
  }

  // What the workflows' instants say about a lease is what the stored texts say.
  lemma LeaseTextsAreInstants(w: Workflow, expires: Stamp, now: Stamp)
    requires expires.Valid() && now.Valid() && w.owner.Some? && w.expires == Some(ToInstant(expires))
    ensures LeaseFree(w, ToInstant(now)) <==> ClaimableAt(IsoFormat(expires), IsoFormat(now))
    ensures LeaseActive(w.expires, ToInstant(now)) <==> ActiveAt(expires, now)
  {
    hide ToInstant, Earlier, IsoFormat;
    EarlierIsLess(now, expires);
    ClaimableOrActive(expires, now);
  }
}
