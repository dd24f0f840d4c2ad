/** Durations letter by letter: which text stands for how many nanoseconds. */
module WrittenDurations {
  import opened Characters
  import opened DurationSyntax
  import opened Duration
  import opened Options

  /** A count with its letter, and a space behind it; nothing if there is no count. */
  function Part(count: string, letter: char): string {
    if count == "" then "" else count + [letter] + " "
  }

  /** Six optional counts in order. */
  function Text(caps: seq<string>, letters: string): string
    requires |caps| == 6 && |letters| == 6
  {
    Part(caps[0], letters[0]) + Part(caps[1], letters[1]) + Part(caps[2], letters[2]) +
    Part(caps[3], letters[3]) + Part(caps[4], letters[4]) + Part(caps[5], letters[5])
  }

  /** Each unit has its letter, in either case. */
  predicate Lettered(letters: string) {
    && |letters| == 6
    && (letters[0] == 'Y' || letters[0] == 'y') && (letters[1] == 'W' || letters[1] == 'w')
    && (letters[2] == 'D' || letters[2] == 'd') && (letters[3] == 'H' || letters[3] == 'h')
    && (letters[4] == 'M' || letters[4] == 'm') && (letters[5] == 'S' || letters[5] == 's')
  }

  /** Years of 365 days, weeks, days, hours, minutes and seconds in nanoseconds. */
  function InNanoseconds(y: nat, w: nat, d: nat, h: nat, m: nat, s: nat): nat {
    1000000000 * (31536000 * y + 604800 * w + 86400 * d + 3600 * h + 60 * m + s)
  }

  // ---------------------------------------------------------------- reading

  lemma PartIsSpaced(ps: seq<string>, cap: string, letter: char)
    ensures Spaced(ps) + Part(cap, letter) == Spaced(ps + if cap == "" then [] else [cap + [letter]])
  {
    hide Spaced;
    if cap == "" {
      assert ps + [] == ps;
    } else {
      SpacedStep(ps, cap + [letter]);
    }
  }

  function Present(caps: seq<string>, letters: string, n: nat): seq<string>
    requires |caps| == 6 && |letters| == 6 && n <= 6
  {
    if n == 0 then []
    else Present(caps, letters, n - 1) + if caps[n - 1] == "" then [] else [caps[n - 1] + [letters[n - 1]]]
  }

  lemma {:induction false} PresentPieces(caps: seq<string>, letters: string, n: nat)
    requires |caps| == 6 && |letters| == 6 && n <= 6
    ensures Present(caps, letters, n) + Pieces(caps, letters, n) == Pieces(caps, letters, 0)
  {
    hide Pieces;
    if n > 0 {
      PresentPieces(caps, letters, n - 1);
      PiecesStep(caps, letters, n - 1);
    }
  }

  lemma TextIsSpaced(caps: seq<string>, letters: string)
    requires |caps| == 6 && |letters| == 6
    ensures Text(caps, letters) == Spaced(Pieces(caps, letters, 0))
  {
    hide Part, Pieces, Spaced;
    var ps := seq(7, n requires 0 <= n < 7 => Present(caps, letters, n));
    forall n | 0 <= n < 6 ensures Spaced(ps[n]) + Part(caps[n], letters[n]) == Spaced(ps[n + 1]) {
      PartIsSpaced(ps[n], caps[n], letters[n]);
    }
    hide Present;
    NothingSpaced();
    assert "" + Part(caps[0], letters[0]) == Part(caps[0], letters[0]);
    PresentPieces(caps, letters, 6);
    PiecesStep(caps, letters, 0);
    assert ps[6] + [] == ps[6];
  }

  lemma NothingSpaced()
    ensures Spaced([]) == ""
  {
  }

  lemma LettersAreUnits(letters: string)
    requires Lettered(letters)
    ensures AreLetters(letters)
  {
  }

  /** Which text is scanned when a text of counts is parsed. */
  lemma TextIsScanned(caps: seq<string>, letters: string)
    requires |caps| == 6 && AreLetters(letters) && forall i | 0 <= i < 6 :: AllDigits(caps[i])
    ensures Simplified(Text(caps, letters)) == Join(Pieces(caps, letters, 0))
    ensures Scan(0, Simplified(Text(caps, letters))) == Some(caps)
  {
    hide Spaced, Pieces, Join, Words, Scan, AllDigits, IsUnit, Text;
    var ps := Pieces(caps, letters, 0);
    TextIsSpaced(caps, letters);
    PiecesAreWords(caps, letters, 0);
    WordsOfSpaced(ps, "");
    NoWords();
    assert Spaced(ps) + "" == Spaced(ps) && ps + [] == ps;
    WrittenThenScanned(caps, letters);
  }

  lemma TotalInNanoseconds(f: seq<nat>)
    requires |f| == 6
    ensures Total(f, 0) == InNanoseconds(f[0], f[1], f[2], f[3], f[4], f[5])
  {
    hide Total;
    TotalIs(f);
  }

  /** A text of counts is parsed to their sum; counts that need more than 63 bits are read as zero. */
  lemma CountsAreRead(caps: seq<string>, letters: string, f: seq<nat>)
    requires |caps| == 6 && (forall i | 0 <= i < 6 :: AllDigits(caps[i])) && Lettered(letters)
    requires exists i | 0 <= i < 6 :: caps[i] != ""
    requires |f| == 6
    requires forall i | 0 <= i < 6 :: f[i] == if Value(caps[i]) < 0x8000_0000_0000_0000 then Value(caps[i]) else 0
    ensures var n := InNanoseconds(f[0], f[1], f[2], f[3], f[4], f[5]);
      Parse(Text(caps, letters)) == if n < 0x8000_0000_0000_0000 then Nanoseconds(n) else Overflow
  {
    hide Scan, Simplified, Text, AllDigits, Pieces, Join, Sum, Value, Total, InNanoseconds, Lettered, IsUnit;
    LettersAreUnits(letters);
    TextIsScanned(caps, letters);
    var i :| 0 <= i < 6 && caps[i] != "";
    SomethingWritten(caps, letters, 0, i);
    SumOfCounts(caps, f, 0, 0);
    TotalInNanoseconds(f);
  }

  /** White space at the end makes no difference. */
  lemma TrailingSpace(s: string)
    requires IsWord(s)
    ensures Parse(s + " ") == Parse(s)
  {
    hide Scan, Sum, Words, IsWord;
    WordBeforeSpace(s, "");
    WordsStep(s, "");
    NoWords();
    assert s + "" == s && " " + "" == " ";
  }

  /** What a number with a letter stands for. */
  ghost predicate Stands(count: nat, letter: char, worth: nat) {
    Parse(Decimal(count) + [letter]) ==
    if count >= 0x8000_0000_0000_0000 then Nanoseconds(0)
    else if count * worth < 0x8000_0000_0000_0000 then Nanoseconds(count * worth)
    else Overflow
  }

  function Single<T>(none: T, some: T, u: nat): (r: seq<T>)
    requires u < 6
    ensures |r| == 6 && r[u] == some && forall i | 0 <= i < 6 && i != u :: r[i] == none
  {
    [none, none, none, none, none, none][u := some]
  }

  lemma SingleText(cap: string, letters: string, u: nat)
    requires u < 6 && |letters| == 6 && cap != ""
    ensures Text(Single("", cap, u), letters) == cap + [letters[u]] + " "
  {
    hide Part, Single;
    NoPart(letters);
    APart(cap, letters[u]);
    var part := cap + [letters[u]] + " ";
    assert "" + part == part && part + "" == part && "" + "" == "";
  }

  lemma NoPart(letters: string)
    ensures forall u | 0 <= u < |letters| :: Part("", letters[u]) == ""
  {
  }

  lemma APart(cap: string, letter: char)
    requires cap != ""
    ensures Part(cap, letter) == cap + [letter] + " "
  {
  }

  function InSeconds(u: nat): nat
    requires u < 6
  {
    [365 * 24 * 3600, 7 * 24 * 3600, 24 * 3600, 3600, 60, 1][u]
  }

  lemma SingleWorth(n: nat, u: nat)
    requires u < 6
    ensures var f := Single(0, n, u);
      InNanoseconds(f[0], f[1], f[2], f[3], f[4], f[5]) == n * (InSeconds(u) * 1000000000)
  {
  }

  lemma SingleCount(c: nat, letters: string, u: nat)
    requires u < 6 && Lettered(letters)
    ensures Stands(c, letters[u], InSeconds(u) * 1000000000)
  {
    hide Text, Parse, Decimal, AllDigits, Value, InSeconds, Single, InNanoseconds, Words, IsWord, IsUnit;
    var caps := Single("", Decimal(c), u);
    var n := if c < 0x8000_0000_0000_0000 then c else 0;
    DecimalRoundTrip(c);
    NoDigits();
    assert caps[u] != "";
    CountsAreRead(caps, letters, Single(0, n, u));
    SingleWorth(n, u);
    SingleText(Decimal(c), letters, u);
    LettersAreUnits(letters);
    hide Lettered;
    CountIsWord(Decimal(c), u, letters[u]);
    TrailingSpace(Decimal(c) + [letters[u]]);
  }

  lemma NoDigits()
    ensures AllDigits("") && Value("") == 0
  {
  }

  /** A number with one letter, in either case. */
  lemma OneCountIsRead(c: nat)
    ensures Stands(c, 'Y', 365 * 24 * 3600 * 1000000000) && Stands(c, 'y', 365 * 24 * 3600 * 1000000000)
    ensures Stands(c, 'W', 7 * 24 * 3600 * 1000000000) && Stands(c, 'w', 7 * 24 * 3600 * 1000000000)
    ensures Stands(c, 'D', 24 * 3600 * 1000000000) && Stands(c, 'd', 24 * 3600 * 1000000000)
    ensures Stands(c, 'H', 3600 * 1000000000) && Stands(c, 'h', 3600 * 1000000000)
    ensures Stands(c, 'M', 60 * 1000000000) && Stands(c, 'm', 60 * 1000000000)
    ensures Stands(c, 'S', 1000000000) && Stands(c, 's', 1000000000)
  {
    hide Stands;
    var upper, lower := "YWDHMS", "ywdhms";
    forall u | 0 <= u < 6
      ensures Stands(c, upper[u], InSeconds(u) * 1000000000) && Stands(c, lower[u], InSeconds(u) * 1000000000)
    {
      SingleCount(c, upper, u);
      SingleCount(c, lower, u);
    }
    assert upper[0] == 'Y' && upper[1] == 'W' && upper[2] == 'D' && upper[3] == 'H' && upper[4] == 'M';
    assert upper[5] == 'S' && lower[5] == 's';
    assert lower[0] == 'y' && lower[1] == 'w' && lower[2] == 'd' && lower[3] == 'h' && lower[4] == 'm';
  }

  /** Numbers are written with their most significant digit first. */
  lemma DecimalDigits(n: nat, k: nat)
    requires k < 10
    ensures Decimal(10 * n + k) == (if n == 0 then "" else Decimal(n)) + ["0123456789"[k]]
  {
    assert (10 * n + k) / 10 == n && (10 * n + k) % 10 == k;
  }

  /** Durations consist of digits, white space and the twelve letters. */
  predicate InAlphabet(s: string) {
    forall i | 0 <= i < |s| :: '0' <= s[i] <= '9' || IsSpace(s[i]) || s[i] in "YWDHMSywdhms"
  }

  lemma HeadInAlphabet(u: nat, s: string, cap: string, count: string, spaces: string, rest: string)
    requires u < 6 && Head(u, s, cap, count, spaces, rest) && InAlphabet(rest)
    ensures InAlphabet(s)
  {
    hide IsSpace;
    assert InAlphabet(spaces);
    if cap != "" {
      assert forall i | 0 <= i < |cap| :: count[i] == cap[i];
    }
    assert InAlphabet(count);
  }

  lemma {:induction false} MatchInAlphabet(u: nat, s: string, caps: seq<string>)
    requires u <= 6 && Match(u, s, caps)
    ensures InAlphabet(s)
    decreases 6 - u
  {
    hide Head, InAlphabet, Match;
    if u == 6 {
      MatchedEnd(s, caps);
      NothingInAlphabet();
    } else {
      var count, spaces, rest := MatchedHead(u, s, caps);
      MatchInAlphabet(u + 1, rest, caps[1..]);
      HeadInAlphabet(u, s, caps[0], count, spaces, rest);
    }
  }

  lemma NothingInAlphabet()
    ensures InAlphabet("")
  {
  }

  lemma DurationsAreInAlphabet(text: string)
    requires IsDuration(text)
    ensures InAlphabet(Simplified(text))
  {
    hide Scan, Match, InAlphabet;
    var s := Simplified(text);
    RecogniserIsExact(s, Scan(0, s).value);
    MatchInAlphabet(0, s, Scan(0, s).value);
  }

  // ---------------------------------------------------------------- printing

  /** The digits of a count; none if it is zero. */
  function Shown(n: nat): string {
    if n == 0 then "" else Decimal(n)
  }

  lemma FieldsAre(y: nat, w: nat, d: nat, h: nat, m: nat, s: nat, rest: nat)
    requires d < 7 && 7 * w + d < 365 && h < 24 && m < 60 && s < 60 && rest < 1000000000
    ensures FieldsOf(InNanoseconds(y, w, d, h, m, s) + rest) == [y, w, d, h, m, s]
  {
    hide Hour, Minute, Second, InNanoseconds;
    var days, secs, msecs := 365 * y + 7 * w + d, 3600 * h + 60 * m + s, rest / NANOSECS_PER_MSEC;
    DaysAndSeconds(y, w, d, h, m, s);
    Parts(days, secs, msecs, rest % NANOSECS_PER_MSEC);
    CalendarOf(y, w, d);
    ClockOf(h, m, s, msecs);
  }

  lemma DaysAndSeconds(y: nat, w: nat, d: nat, h: nat, m: nat, s: nat)
    ensures InNanoseconds(y, w, d, h, m, s) ==
      NANOSECS_PER_DAY * (365 * y + 7 * w + d) + NANOSECS_PER_SEC * (3600 * h + 60 * m + s)
  {
  }

  lemma CalendarOf(y: nat, w: nat, d: nat)
    requires d < 7 && 7 * w + d < 365
    ensures var days := 365 * y + 7 * w + d;
      days / DAYS_PER_YEAR == y && days % DAYS_PER_YEAR / DAYS_PER_WEEK == w &&
      days % DAYS_PER_YEAR % DAYS_PER_WEEK == d
  {
    QuotientOf(DAYS_PER_YEAR, y, 7 * w + d);
    QuotientOf(DAYS_PER_WEEK, w, d);
  }

  lemma ClockOf(h: nat, m: nat, s: nat, msecs: nat)
    requires m < 60 && s < 60 && msecs < 1000
    ensures var t := 1000 * (3600 * h + 60 * m + s) + msecs;
      Hour(t) == h && Minute(t) == m && Second(t) == s
  {
    QuotientOf(3600000, h, 1000 * (60 * m + s) + msecs);
    QuotientOf(60000, m, 1000 * s + msecs);
    QuotientOf(1000, 3600 * h + 60 * m + s, msecs);
    QuotientOf(60, 60 * h + m, s);
  }

  lemma {:induction false} JoinLast(ps: seq<string>)
    requires |ps| > 1
    ensures Join(ps) == Join(ps[..|ps| - 1]) + " " + ps[|ps| - 1]
  {
    hide Join;
    var front := ps[..|ps| - 1];
    JoinSplit(ps);
    JoinSplit(front);
    if |ps| == 2 {
      JoinSplit(ps[1..]);
      assert ps[1..] == [ps[1]];
    } else {
      JoinLast(ps[1..]);
      assert ps[1..][..|ps| - 2] == front[1..];
    }
  }

  lemma {:induction false} SpacedIsJoined(ps: seq<string>)
    requires ps != []
    ensures Spaced(ps) == Join(ps) + " "
  {
    var n := |ps| - 1;
    if n == 0 {
      assert ps[..0] == [] && "" + ps[0] == ps[0];
    } else {
      SpacedIsJoined(ps[..n]);
      JoinLast(ps);
    }
  }

  lemma PrintedText(f: seq<nat>)
    requires |f| == 6
    ensures Print(f) + " " == Text(Counts(f), UNITS)
  {
    hide Text, Spaced, Pieces, Join, Counts;
    var ps := Pieces(Counts(f), UNITS, 0);
    TextIsSpaced(Counts(f), UNITS);
    SomethingPrinted(f);
    JoinSplit(ps);
    SpacedIsJoined(ps);
  }

  lemma ZeroText(letters: string)
    requires |letters| == 6
    ensures Text(["", "", "", "", "", "0"], letters) == "0" + [letters[5]] + " "
  {
    SingleText("0", letters, 5);
    assert Single("", "0", 5) == ["", "", "", "", "", "0"];
  }

  lemma CountsAre(f: seq<nat>)
    requires |f| == 6
    ensures Counts(f) == if f == [0, 0, 0, 0, 0, 0] then ["", "", "", "", "", "0"]
                         else [Shown(f[0]), Shown(f[1]), Shown(f[2]), Shown(f[3]), Shown(f[4]), Shown(f[5])]
  {
    hide Decimal;
  }

  /** A duration prints as its parts that are not zero; less than a second prints as zero seconds. */
  lemma PartsArePrinted(y: nat, w: nat, d: nat, h: nat, m: nat, s: nat, rest: nat)
    requires d < 7 && 7 * w + d < 365 && h < 24 && m < 60 && s < 60 && rest < 1000000000
    ensures var n := InNanoseconds(y, w, d, h, m, s) + rest;
      Print(FieldsOf(n)) + " " ==
      if n < 1000000000 then "0S "
      else Text([Shown(y), Shown(w), Shown(d), Shown(h), Shown(m), Shown(s)], "YWDHMS")
  {
    hide Shown, Counts, FieldsOf, Print, Text;
    var f := [y, w, d, h, m, s];
    FieldsAre(y, w, d, h, m, s, rest);
    PrintedText(f);
    CountsAre(f);
    if f == [0, 0, 0, 0, 0, 0] {
      ZeroText(UNITS);
      assert [UNITS[5]] == "S";
    }
  }
}
