/** Durations: nanoseconds split into years, weeks, days, hours, minutes and seconds, printed and
    parsed. */
module Duration {
  import opened DurationSyntax
  import opened Options

  const NANOSECS_PER_MSEC := 1000000
  const NANOSECS_PER_SEC := 1000 * NANOSECS_PER_MSEC
  const NANOSECS_PER_MIN := 60 * NANOSECS_PER_SEC
  const NANOSECS_PER_HOUR := 60 * NANOSECS_PER_MIN
  const NANOSECS_PER_DAY := 24 * NANOSECS_PER_HOUR
  const NANOSECS_PER_WEEK := 7 * NANOSECS_PER_DAY
  const MSECS_PER_DAY := 86400000
  const DAYS_PER_YEAR := 365
  const DAYS_PER_WEEK := 7

  /** The bounds of signed and unsigned 64-bit integers. */
  const SIGNED_LIMIT := 0x8000_0000_0000_0000
  const UNSIGNED_LIMIT := 0x1_0000_0000_0000_0000

  /** What one of each unit is worth, in the order of the pattern. */
  function Worth(u: nat): nat
    requires u < 6
  {
    if u == 0 then 52 * NANOSECS_PER_WEEK + NANOSECS_PER_DAY
    else if u == 1 then NANOSECS_PER_WEEK
    else if u == 2 then NANOSECS_PER_DAY
    else if u == 3 then NANOSECS_PER_HOUR
    else if u == 4 then NANOSECS_PER_MIN
    else NANOSECS_PER_SEC
  }

  /** The time of day, in milliseconds, as hour, minute and second. */
  function Hour(msecs: nat): nat { msecs / 3600000 }

  function Minute(msecs: nat): nat { msecs % 3600000 / 60000 }

  function Second(msecs: nat): nat { msecs / 1000 % 60 }

  /** Years, weeks, days, hours, minutes, seconds. */
  function FieldsOf(n: nat): (f: seq<nat>)
    ensures |f| == 6
  {
    var msecs, days := n / NANOSECS_PER_MSEC % MSECS_PER_DAY, n / NANOSECS_PER_DAY;
    [days / DAYS_PER_YEAR, days % DAYS_PER_YEAR / DAYS_PER_WEEK, days % DAYS_PER_YEAR % DAYS_PER_WEEK,
     Hour(msecs), Minute(msecs), Second(msecs)]
  }

  function WholeSeconds(n: nat): nat { n - n % NANOSECS_PER_SEC }

  function Product(count: nat, u: nat): nat
    requires u < 6
  {
    count * Worth(u)
  }

  /** What fields are worth together, from unit `u` on. */
  function Total(f: seq<nat>, u: nat): nat
    requires |f| == 6 && u <= 6
    decreases 6 - u
  {
    if u == 6 then 0 else Product(f[u], u) + Total(f, u + 1)
  }

  // ---------------------------------------------------------------- the fields are a mixed radix number

  lemma TimeOfDay(msecs: nat)
    requires msecs < MSECS_PER_DAY
    ensures Hour(msecs) < 24 && Minute(msecs) < 60 && Second(msecs) < 60
    ensures 3600 * Hour(msecs) + 60 * Minute(msecs) + Second(msecs) == msecs / 1000
  {
    var h, r := Hour(msecs), msecs % 3600000;
    var m, q := Minute(msecs), r % 60000;
    assert msecs == 3600000 * h + 60000 * m + q;
    assert msecs / 1000 == 3600 * h + 60 * m + q / 1000;
  }

  lemma {:induction false} SmallerProduct(d: nat, a: nat, b: nat)
    requires a < b
    ensures d * a + d <= d * b
  {
    assert d * b == d * (b - 1) + d;
    if a < b - 1 {
      SmallerProduct(d, a, b - 1);
    }
  }

  lemma QuotientIsUnique(d: nat, a: nat, r: nat, b: nat, s: nat)
    requires r < d && s < d && d * a + r == d * b + s
    ensures a == b && r == s
  {
    if a < b { SmallerProduct(d, a, b); }
    if b < a { SmallerProduct(d, b, a); }
  }

  lemma QuotientOf(d: nat, q: nat, r: nat)
    requires r < d
    ensures (d * q + r) / d == q && (d * q + r) % d == r
  {
    var n := d * q + r;
    QuotientIsUnique(d, q, r, n / d, n % d);
  }

  /** Dividing a sum of days, seconds, milliseconds and nanoseconds gives its parts back. */
  lemma Parts(days: nat, s: nat, m: nat, p: nat)
    requires s < 86400 && m < 1000 && p < NANOSECS_PER_MSEC
    ensures var n := NANOSECS_PER_DAY * days + NANOSECS_PER_SEC * s + NANOSECS_PER_MSEC * m + p;
      && n / NANOSECS_PER_DAY == days
      && n / NANOSECS_PER_MSEC % MSECS_PER_DAY == 1000 * s + m
      && WholeSeconds(n) == NANOSECS_PER_DAY * days + NANOSECS_PER_SEC * s
  {
    QuotientOf(NANOSECS_PER_DAY, days, NANOSECS_PER_SEC * s + NANOSECS_PER_MSEC * m + p);
    QuotientOf(NANOSECS_PER_MSEC, MSECS_PER_DAY * days + 1000 * s + m, p);
    QuotientOf(MSECS_PER_DAY, days, 1000 * s + m);
    QuotientOf(NANOSECS_PER_SEC, 86400 * days + s, NANOSECS_PER_MSEC * m + p);
  }

  lemma PartsOf(n: nat) returns (days: nat, s: nat, m: nat, p: nat)
    ensures s < 86400 && m < 1000 && p < NANOSECS_PER_MSEC
    ensures n == NANOSECS_PER_DAY * days + NANOSECS_PER_SEC * s + NANOSECS_PER_MSEC * m + p
  {
    var r := n % NANOSECS_PER_DAY;
    var q := r % NANOSECS_PER_SEC;
    days, s, m, p := n / NANOSECS_PER_DAY, r / NANOSECS_PER_SEC, q / NANOSECS_PER_MSEC, q % NANOSECS_PER_MSEC;
  }

  lemma CalendarDays(days: nat)
    ensures var y, rest := days / DAYS_PER_YEAR, days % DAYS_PER_YEAR;
      var w, d := rest / DAYS_PER_WEEK, rest % DAYS_PER_WEEK;
      365 * y + 7 * w + d == days && w <= 52 && d < 7
  {
  }

  /** The fields stay within their units and are worth the whole seconds of the duration. */
  lemma FieldsAddUp(n: nat)
    ensures var f := FieldsOf(n);
      f[1] <= 52 && f[2] < 7 && f[3] < 24 && f[4] < 60 && f[5] < 60 && Total(f, 0) == WholeSeconds(n)
  {
    hide Total, Hour, Minute, Second, WholeSeconds;
    var days, s, m, p := PartsOf(n);
    Parts(days, s, m, p);
    TimeOfDay(1000 * s + m);
    CalendarDays(days);
    var f := FieldsOf(n);
    TotalIs(f);
    assert (1000 * s + m) / 1000 == s;
    assert 365 * f[0] + 7 * f[1] + f[2] == days;
    assert 3600 * f[3] + 60 * f[4] + f[5] == s;
  }

  lemma TotalIs(f: seq<nat>)
    requires |f| == 6
    ensures Total(f, 0) ==
      NANOSECS_PER_DAY * (365 * f[0] + 7 * f[1] + f[2]) + NANOSECS_PER_SEC * (3600 * f[3] + 60 * f[4] + f[5])
  {
    assert Total(f, 6) == 0;
    assert Total(f, 5) == f[5] * Worth(5);
    assert Total(f, 4) == f[4] * Worth(4) + Total(f, 5);
    assert Total(f, 3) == f[3] * Worth(3) + Total(f, 4);
    assert Total(f, 2) == f[2] * Worth(2) + Total(f, 3);
    assert Total(f, 1) == f[1] * Worth(1) + Total(f, 2);
  }

  // ---------------------------------------------------------------- printing

  /** The printed counts: zero counts are left out, but not all of them. */
  function Counts(f: seq<nat>): (caps: seq<string>)
    requires |f| == 6
    ensures |caps| == 6 && forall i | 0 <= i < 6 :: AllDigits(caps[i])
  {
    seq(6, i requires 0 <= i < 6 =>
      if f[i] != 0 then Decimal(f[i]) else if i == 5 && f == [0, 0, 0, 0, 0, 0] then "0" else "")
  }

  function Print(f: seq<nat>): string
    requires |f| == 6
  {
    Join(Pieces(Counts(f), UNITS, 0))
  }

  lemma UnitsAreLetters()
    ensures AreLetters(UNITS)
  {
  }

  // ---------------------------------------------------------------- parsing

  /** Not a duration; a duration that overflows signed 64-bit arithmetic, whose result is undefined;
      or a number of nanoseconds. */
  datatype Parsed = Invalid | Overflow | Nanoseconds(n: nat)

  /** Numbers that do not fit are read as zero. */
  function ToLongLong(cap: string): nat
    requires AllDigits(cap)
  {
    if Value(cap) < SIGNED_LIMIT then Value(cap) else 0
  }

  function Sum(caps: seq<string>, u: nat, sum: nat): Parsed
    requires |caps| == 6 && u <= 6 && forall i | 0 <= i < 6 :: AllDigits(caps[i])
    decreases 6 - u
  {
    if u == 6 then Nanoseconds(sum)
    else
      var product := Product(ToLongLong(caps[u]), u);
      if product >= SIGNED_LIMIT || sum + product >= SIGNED_LIMIT then Overflow else Sum(caps, u + 1, sum + product)
  }

  predicate IsDuration(text: string) {
    Scan(0, Simplified(text)).Some? && Simplified(text) != ""
  }

  function Parse(text: string): Parsed {
    if IsDuration(text) then Sum(Scan(0, Simplified(text)).value, 0, 0) else Invalid
  }

  /** Durations are the non-blank texts that match the pattern. */
  lemma DurationsMatch(text: string)
    ensures IsDuration(text) <==> Simplified(text) != "" && exists caps :: Match(0, Simplified(text), caps)
  {
    hide Scan, Match;
    var s := Simplified(text);
    if IsDuration(text) {
      RecogniserIsExact(s, Scan(0, s).value);
    }
    if caps :| Match(0, s, caps) {
      RecogniserIsExact(s, caps);
    }
  }

  // ---------------------------------------------------------------- round trips

  lemma TotalStep(f: seq<nat>, u: nat)
    requires |f| == 6 && u < 6
    ensures Total(f, u) == Product(f[u], u) + Total(f, u + 1)
  {
  }

  lemma SumStep(caps: seq<string>, u: nat, sum: nat)
    requires |caps| == 6 && u < 6 && forall i | 0 <= i < 6 :: AllDigits(caps[i])
    ensures var product := Product(ToLongLong(caps[u]), u);
      Sum(caps, u, sum) ==
      if product >= SIGNED_LIMIT || sum + product >= SIGNED_LIMIT then Overflow else Sum(caps, u + 1, sum + product)
  {
    hide Product, ToLongLong, AllDigits;
  }

  /** The sum is the total of the counts unless that overflows. */
  lemma {:induction false} SumOfCounts(caps: seq<string>, f: seq<nat>, u: nat, sum: nat)
    requires |caps| == 6 && |f| == 6 && u <= 6 && sum < SIGNED_LIMIT
    requires forall i | 0 <= i < 6 :: AllDigits(caps[i]) && ToLongLong(caps[i]) == f[i]
    ensures Sum(caps, u, sum) ==
      if sum + Total(f, u) < SIGNED_LIMIT then Nanoseconds(sum + Total(f, u)) else Overflow
    decreases 6 - u
  {
    hide Product, AllDigits, ToLongLong, Total, Sum;
    if u == 6 {
      NothingMore(caps, f, sum);
    } else {
      var product := Product(f[u], u);
      TotalStep(f, u);
      SumStep(caps, u, sum);
      if sum + product < SIGNED_LIMIT {
        SumOfCounts(caps, f, u + 1, sum + product);
      }
    }
  }

  lemma NothingMore(caps: seq<string>, f: seq<nat>, sum: nat)
    requires |caps| == 6 && |f| == 6 && forall i | 0 <= i < 6 :: AllDigits(caps[i])
    ensures Sum(caps, 6, sum) == Nanoseconds(sum) && Total(f, 6) == 0
  {
  }

  lemma CountsHoldFields(f: seq<nat>, i: nat)
    requires |f| == 6 && i < 6 && f[i] < SIGNED_LIMIT
    ensures ToLongLong(Counts(f)[i]) == f[i]
  {
    if f[i] != 0 {
      DecimalRoundTrip(f[i]);
    } else {
      DecimalRoundTrip(0);
      assert Value("") == 0;
    }
  }

  /** Printed fields are parsed back to their total, or overflow when it does not fit. */
  lemma PrintedFields(f: seq<nat>)
    requires |f| == 6 && forall i | 0 <= i < 6 :: f[i] < SIGNED_LIMIT
    ensures Print(f) != "" && Simplified(Print(f)) == Print(f)
    ensures Scan(0, Print(f)) == Some(Counts(f))
    ensures Parse(Print(f)) == if Total(f, 0) < SIGNED_LIMIT then Nanoseconds(Total(f, 0)) else Overflow
  {
    hide Scan, Counts, Pieces, Words, Join, Total, Sum, ToLongLong, AllDigits, AreLetters;
    var caps := Counts(f);
    UnitsAreLetters();
    PiecesAreWords(caps, UNITS, 0);
    WordsOfJoin(Pieces(caps, UNITS, 0));
    WrittenThenScanned(caps, UNITS);
    SomethingPrinted(f);
    forall i | 0 <= i < 6 ensures ToLongLong(caps[i]) == f[i] {
      CountsHoldFields(f, i);
    }
    SumOfCounts(caps, f, 0, 0);
  }

  lemma SomethingPrinted(f: seq<nat>)
    requires |f| == 6
    ensures Print(f) != ""
  {
    var caps := Counts(f);
    var u := if f[0] != 0 then 0 else if f[1] != 0 then 1 else if f[2] != 0 then 2
             else if f[3] != 0 then 3 else if f[4] != 0 then 4 else 5;
    assert caps[u] != "" by {
      if f[u] == 0 { assert f == [0, 0, 0, 0, 0, 0]; }
    }
    hide Pieces, Join, Counts, UNITS;
    SomethingWritten(caps, UNITS, 0, u);
  }

  lemma {:induction false} SomethingWritten(caps: seq<string>, letters: string, u: nat, v: nat)
    requires |caps| == 6 && |letters| == 6 && u <= v < 6 && caps[v] != ""
    ensures Pieces(caps, letters, u) != [] && Join(Pieces(caps, letters, u)) != ""
    decreases v - u
  {
    hide Pieces, Join;
    var ps := Pieces(caps, letters, u);
    PiecesStep(caps, letters, u);
    JoinSplit(ps);
    if caps[u] == "" {
      assert ps == Pieces(caps, letters, u + 1);
      SomethingWritten(caps, letters, u + 1, v);
    } else {
      assert ps[0] == caps[u] + [letters[u]];
    }
  }

  /** Parsing what was printed gives the duration in whole seconds; this fails exactly when that
      needs more than 63 bits. */
  lemma PrintThenParse(n: nat)
    requires n < UNSIGNED_LIMIT
    ensures Parse(Print(FieldsOf(n))) ==
      if WholeSeconds(n) < SIGNED_LIMIT then Nanoseconds(WholeSeconds(n)) else Overflow
  {
    hide Parse, Print, Total;
    FieldsAddUp(n);
    PrintedFields(FieldsOf(n));
  }

  /** Durations print alike exactly when they have the same whole seconds. */
  lemma PrintIsInjective(m: nat, n: nat)
    requires m < UNSIGNED_LIMIT && n < UNSIGNED_LIMIT
    ensures Print(FieldsOf(m)) == Print(FieldsOf(n)) <==> WholeSeconds(m) == WholeSeconds(n)
  {
    hide Print, Total, WholeSeconds;
    FieldsAddUp(m);
    FieldsAddUp(n);
    FractionIsDropped(m);
    FractionIsDropped(n);
    if Print(FieldsOf(m)) == Print(FieldsOf(n)) {
      SamePrintSameFields(FieldsOf(m), FieldsOf(n));
    }
  }

  lemma SamePrintSameFields(f: seq<nat>, g: seq<nat>)
    requires |f| == 6 && |g| == 6 && forall i | 0 <= i < 6 :: f[i] < SIGNED_LIMIT && g[i] < SIGNED_LIMIT
    requires Print(f) == Print(g)
    ensures f == g
  {
    hide Print, Scan, Counts, ToLongLong, Parse, Total, AllDigits;
    PrintedFields(f);
    PrintedFields(g);
    forall i | 0 <= i < 6 ensures f[i] == g[i] {
      CountsHoldFields(f, i);
      CountsHoldFields(g, i);
    }
  }

  lemma FractionIsDropped(n: nat)
    ensures FieldsOf(WholeSeconds(n)) == FieldsOf(n)
  {
    hide Hour, Minute, Second, WholeSeconds;
    var days, s, m, p := PartsOf(n);
    Parts(days, s, m, p);
    Parts(days, s, 0, 0);
    SameClock(s, m);
  }

  lemma SameClock(s: nat, m: nat)
    requires m < 1000
    ensures Hour(1000 * s + m) == Hour(1000 * s) && Minute(1000 * s + m) == Minute(1000 * s)
    ensures Second(1000 * s + m) == Second(1000 * s)
  {
    var h, r := s / 3600, s % 3600;
    var k, q := r / 60, r % 60;
    assert s == 3600 * h + 60 * k + q;
    QuotientOf(3600000, h, 1000 * r + m);
    QuotientOf(3600000, h, 1000 * r);
    QuotientOf(60000, k, 1000 * q + m);
    QuotientOf(60000, k, 1000 * q);
    QuotientOf(1000, s, m);
    QuotientOf(1000, s, 0);
  }

  lemma {:induction false} SumIsWhole(caps: seq<string>, u: nat, sum: nat)
    requires |caps| == 6 && u <= 6 && (forall i | 0 <= i < 6 :: AllDigits(caps[i]))
    requires sum % NANOSECS_PER_SEC == 0 && sum < SIGNED_LIMIT
    ensures Sum(caps, u, sum).Nanoseconds? ==>
      Sum(caps, u, sum).n % NANOSECS_PER_SEC == 0 && Sum(caps, u, sum).n < SIGNED_LIMIT
    decreases 6 - u
  {
    hide AllDigits, ToLongLong, Product;
    if u < 6 {
      var product := Product(ToLongLong(caps[u]), u);
      WorthIsWhole(ToLongLong(caps[u]), u);
      if product < SIGNED_LIMIT && sum + product < SIGNED_LIMIT {
        SumIsWhole(caps, u + 1, sum + product);
      }
    }
  }

  lemma WorthIsWhole(a: nat, u: nat)
    requires u < 6
    ensures Product(a, u) % NANOSECS_PER_SEC == 0
  {
    var w := Worth(u) / NANOSECS_PER_SEC;
    assert Worth(u) == w * NANOSECS_PER_SEC;
    assert a * Worth(u) == a * w * NANOSECS_PER_SEC;
    Multiple(a * w);
  }

  lemma Multiple(k: nat)
    ensures k * NANOSECS_PER_SEC % NANOSECS_PER_SEC == 0
  {
  }

  /** A parsed duration is whole seconds, and printing it gives a normal form: parsed again it is
      the same duration, and printed again the same text. */
  lemma NormalForm(text: string)
    requires Parse(text).Nanoseconds?
    ensures var n := Parse(text).n;
      && WholeSeconds(n) == n && n < SIGNED_LIMIT
      && Parse(Print(FieldsOf(n))) == Nanoseconds(n)
  {
    hide Print, FieldsOf, Scan, Sum, Simplified;
    SumIsWhole(Scan(0, Simplified(text)).value, 0, 0);
    PrintThenParse(Parse(text).n);
  }

  // ---------------------------------------------------------------- the object

  class Duration {
    var totalNanoSecs: nat
    var nanoSecs: nat
    var seconds: nat
    var minutes: nat
    var hours: nat
    var days: nat
    var weeks: nat
    var years: nat

    function Fields(): (f: seq<nat>)
      reads this
      ensures |f| == 6
    {
      [years, weeks, days, hours, minutes, seconds]
    }

    constructor FromNanoSecs(n: nat)
      requires n < UNSIGNED_LIMIT
      ensures totalNanoSecs == n && nanoSecs == n % NANOSECS_PER_SEC
      ensures Fields() == FieldsOf(n)
      ensures Total(Fields(), 0) + nanoSecs == n
    {
      new;
      SetNanoSecs(n);
    }

    method SetNanoSecs(n: nat)
      modifies this
      ensures totalNanoSecs == n && nanoSecs == n % NANOSECS_PER_SEC
      ensures Fields() == FieldsOf(n)
      ensures Total(Fields(), 0) + nanoSecs == n
    {
      hide Hour, Minute, Second, Total;
      var reftime := n / NANOSECS_PER_MSEC % MSECS_PER_DAY;
      var d := n / NANOSECS_PER_DAY;
      totalNanoSecs := n;
      nanoSecs := totalNanoSecs % NANOSECS_PER_SEC;
      seconds, minutes, hours := Second(reftime), Minute(reftime), Hour(reftime);
      days := d % DAYS_PER_YEAR % DAYS_PER_WEEK;
      weeks := d % DAYS_PER_YEAR / DAYS_PER_WEEK;
      years := d / DAYS_PER_YEAR;
      FieldsAddUp(n);
    }

    /** A text that is no duration leaves the fields unset; one that overflows, everything. */
    constructor FromText(text: string)
      ensures Parse(text).Nanoseconds? ==> totalNanoSecs == Parse(text).n && Fields() == FieldsOf(Parse(text).n)
      ensures Parse(text).Invalid? ==> totalNanoSecs == 0
    {
      hide Scan, FieldsOf, ToLongLong, Simplified, Sum, Worth, AllDigits;
      totalNanoSecs := 0;
      new;
      if IsDuration(text) {
        var list := Scan(0, Simplified(text)).value;
        var year := ToLongLong(list[0]) * (52 * NANOSECS_PER_WEEK + NANOSECS_PER_DAY);
        var week := ToLongLong(list[1]) * NANOSECS_PER_WEEK;
        var day := ToLongLong(list[2]) * NANOSECS_PER_DAY;
        var hour := ToLongLong(list[3]) * NANOSECS_PER_HOUR;
        var min := ToLongLong(list[4]) * NANOSECS_PER_MIN;
        var sec := ToLongLong(list[5]) * NANOSECS_PER_SEC;
        CountsAddUp(list);
        SetNanoSecs((year + week + day + hour + min + sec) % UNSIGNED_LIMIT);
      }
    }

    method ToString() returns (retval: string)
      ensures retval == Print(Fields())
    {
      hide Counts, Pieces, Simplified, Spaced, Decimal, Print, AllDigits;
      ghost var caps := Counts(Fields());
      ghost var ps := [];
      retval := "";
      NothingWritten(caps);
      retval, ps := AppendCount(retval, ps, Fields(), 0);
      retval, ps := AppendCount(retval, ps, Fields(), 1);
      retval, ps := AppendCount(retval, ps, Fields(), 2);
      retval, ps := AppendCount(retval, ps, Fields(), 3);
      retval, ps := AppendCount(retval, ps, Fields(), 4);
      LastCount(ps, Fields());
      ghost var buffer := retval;
      assert Fields() == [0, 0, 0, 0, 0, 0] <==>
        years == 0 && weeks == 0 && days == 0 && hours == 0 && minutes == 0 && seconds == 0;
      if seconds != 0 {
        retval := retval + Decimal(seconds);
        retval := retval + "S";
      } else if years == 0 && weeks == 0 && days == 0 && hours == 0 && minutes == 0 && seconds == 0 {
        retval := retval + "0S";
      }
      assert retval == buffer + LastText(Fields());
      retval := Simplified(retval);
    }
  }

  function Numbers(caps: seq<string>): (f: seq<nat>)
    requires |caps| == 6 && forall i | 0 <= i < 6 :: AllDigits(caps[i])
    ensures |f| == 6 && forall i | 0 <= i < 6 :: f[i] == ToLongLong(caps[i])
  {
    seq(6, i requires 0 <= i < 6 => ToLongLong(caps[i]))
  }

  lemma CountsAddUp(caps: seq<string>)
    requires |caps| == 6 && forall i | 0 <= i < 6 :: AllDigits(caps[i])
    ensures var total := Total(Numbers(caps), 0);
      && Sum(caps, 0, 0) == (if total < SIGNED_LIMIT then Nanoseconds(total) else Overflow)
      && total ==
        ToLongLong(caps[0]) * (52 * NANOSECS_PER_WEEK + NANOSECS_PER_DAY) + ToLongLong(caps[1]) * NANOSECS_PER_WEEK +
        ToLongLong(caps[2]) * NANOSECS_PER_DAY + ToLongLong(caps[3]) * NANOSECS_PER_HOUR +
        ToLongLong(caps[4]) * NANOSECS_PER_MIN + ToLongLong(caps[5]) * NANOSECS_PER_SEC
  {
    hide ToLongLong, AllDigits, Sum, Numbers;
    SumOfCounts(caps, Numbers(caps), 0, 0);
    TotalIs(Numbers(caps));
  }

  // ---------------------------------------------------------------- the buffer of the printer

  /** The counts written so far, a space behind each. */
  function Spaced(ps: seq<string>): string {
    if |ps| == 0 then "" else Spaced(ps[..|ps| - 1]) + ps[|ps| - 1] + " "
  }

  lemma WordsAfterSpace(t: string)
    ensures Words(" " + t) == Words(t)
  {
    assert (" " + t)[1..] == t;
  }

  lemma SpacedSplit(ps: seq<string>, t: string)
    requires |ps| > 0
    ensures Spaced(ps) + t == Spaced(ps[..|ps| - 1]) + (ps[|ps| - 1] + (" " + t))
  {
    var a, b := Spaced(ps[..|ps| - 1]), ps[|ps| - 1];
    assert Spaced(ps) == a + b + " ";
    hide Spaced;
    Regroup(a, b, " ", t);
  }

  lemma Regroup(a: string, b: string, c: string, d: string)
    ensures a + b + c + d == a + (b + (c + d))
  {
  }

  lemma {:induction false} WordsOfSpaced(ps: seq<string>, t: string)
    requires forall i | 0 <= i < |ps| :: IsWord(ps[i])
    ensures Words(Spaced(ps) + t) == ps + Words(t)
  {
    hide IsWord, Words;
    if |ps| == 0 {
      assert "" + t == t;
    } else {
      hide Spaced;
      var n := |ps| - 1;
      WordsOfSpaced(ps[..n], ps[n] + (" " + t));
      WordBeforeSpace(ps[n], t);
      SpacedSplit(ps, t);
      LastOf(ps, Words(t));
    }
  }

  lemma WordBeforeSpace(w: string, t: string)
    requires IsWord(w)
    ensures Words(w + (" " + t)) == [w] + Words(t)
  {
    hide IsWord, Words;
    WordsAfterSpace(t);
    WordsStep(w, " " + t);
  }

  lemma LastOf(ps: seq<string>, ws: seq<string>)
    requires |ps| > 0
    ensures ps[..|ps| - 1] + ([ps[|ps| - 1]] + ws) == ps + ws
  {
  }

  method AppendCount(buffer: string, ghost written: seq<string>, f: seq<nat>, u: nat)
    returns (retval: string, ghost ps: seq<string>)
    requires |f| == 6 && u < 5
    requires buffer == Spaced(written) && Pieces(Counts(f), UNITS, 0) == written + Pieces(Counts(f), UNITS, u)
    ensures retval == Spaced(ps) && Pieces(Counts(f), UNITS, 0) == ps + Pieces(Counts(f), UNITS, u + 1)
  {
    hide Spaced, Pieces, Counts, Decimal, AllDigits;
    retval, ps := buffer, written;
    if f[u] != 0 {
      retval := retval + Decimal(f[u]);
      retval := retval + [UNITS[u]] + " ";
      ghost var count := Decimal(f[u]) + [UNITS[u]];
      ps := written + [count];
      assert retval == buffer + count + " ";
      SpacedStep(written, count);
    }
    PieceStep(f, u);
  }

  lemma SpacedStep(ps: seq<string>, count: string)
    ensures Spaced(ps + [count]) == Spaced(ps) + count + " "
  {
    assert (ps + [count])[..|ps|] == ps;
  }

  lemma PieceStep(f: seq<nat>, u: nat)
    requires |f| == 6 && u < 5
    ensures Pieces(Counts(f), UNITS, u) ==
      (if f[u] != 0 then [Decimal(f[u]) + [UNITS[u]]] else []) + Pieces(Counts(f), UNITS, u + 1)
  {
    hide Decimal, AllDigits;
  }

  function LastText(f: seq<nat>): string
    requires |f| == 6
  {
    if f[5] != 0 then Decimal(f[5]) + "S" else if f == [0, 0, 0, 0, 0, 0] then "0S" else ""
  }

  lemma LastStep(f: seq<nat>)
    requires |f| == 6
    ensures Pieces(Counts(f), UNITS, 5) == if LastText(f) == "" then [] else [LastText(f)]
  {
    hide Decimal, AllDigits;
    var cap := Counts(f)[5];
    PiecesStep(Counts(f), UNITS, 5);
    assert [UNITS[5]] == "S";
    assert cap != "" ==> cap + "S" == LastText(f);
    assert Pieces(Counts(f), UNITS, 5) == (if cap != "" then [cap + "S"] else []) + [];
  }

  lemma NothingWritten(caps: seq<string>)
    requires |caps| == 6
    ensures Spaced([]) == "" && Pieces(caps, UNITS, 0) == [] + Pieces(caps, UNITS, 0)
  {
  }

  /** The seconds end the text, and are written as zero if nothing else is. */
  lemma LastCount(ps: seq<string>, f: seq<nat>)
    requires |f| == 6 && Pieces(Counts(f), UNITS, 0) == ps + Pieces(Counts(f), UNITS, 5)
    ensures Simplified(Spaced(ps) + LastText(f)) == Print(f)
  {
    hide Decimal, Spaced, IsWord, AllDigits, Pieces, Counts, Words, LastText, Join;
    var caps := Counts(f);
    var last := LastText(f);
    UnitsAreLetters();
    PiecesAreWords(caps, UNITS, 0);
    PiecesAreWords(caps, UNITS, 5);
    LastStep(f);
    forall i | 0 <= i < |ps| ensures IsWord(ps[i]) {
      assert ps[i] == Pieces(caps, UNITS, 0)[i];
    }
    WordsOfSpaced(ps, last);
    NoWords();
    if last != "" {
      assert Pieces(caps, UNITS, 5)[0] == last;
      WordsStep(last, "");
      assert last + "" == last;
      assert [last] + [] == [last];
    }
    assert Words(Spaced(ps) + last) == Pieces(caps, UNITS, 0);
  }

  lemma NoWords()
    ensures Words("") == []
  {
  }
}
