/** The text of durations: simplified white space, decimal numbers, and the pattern of six optional
    counts "1Y 2W 3D 4H 5M 6S". */
module DurationSyntax {
  import opened Characters
  import opened Options

  const UNITS := "YWDHMS"

  predicate IsDigit(c: char) { '0' <= c <= '9' }

  predicate AllSpaces(s: string) { forall i | 0 <= i < |s| :: IsSpace(s[i]) }

  predicate AllDigits(s: string) { forall i | 0 <= i < |s| :: IsDigit(s[i]) }

  /** Unit letters are matched in either case. */
  predicate IsUnit(c: char, u: nat)
    requires u < 6
  {
    c == UNITS[u] || c as int == UNITS[u] as int + 32
  }

  // ---------------------------------------------------------------- simplified white space

  /** The length of the leading run of characters that satisfy the test. */
  function Span(s: string, f: char -> bool): (n: nat)
    ensures n <= |s| && forall i | 0 <= i < n :: f(s[i])
    ensures n < |s| ==> !f(s[n])
  {
    if |s| > 0 && f(s[0]) then 1 + Span(s[1..], f) else 0
  }

  lemma {:induction false} SpanIs(s: string, f: char -> bool, n: nat)
    requires n <= |s| && forall i | 0 <= i < n :: f(s[i])
    requires n < |s| ==> !f(s[n])
    ensures Span(s, f) == n
  {
    if n > 0 { SpanIs(s[1..], f, n - 1); }
  }

  function SkipSpaces(s: string): string {
    s[Span(s, IsSpace)..]
  }

  predicate IsWord(w: string) {
    w != "" && forall i | 0 <= i < |w| :: !IsSpace(w[i])
  }

  /** The maximal runs of characters other than white space. */
  function Words(s: string): seq<string>
    decreases |s|
  {
    if |s| == 0 then []
    else if IsSpace(s[0]) then Words(s[1..])
    else
      var n := Span(s, c => !IsSpace(c));
      [s[..n]] + Words(s[n..])
  }

  function Join(ws: seq<string>): string {
    if |ws| == 0 then "" else if |ws| == 1 then ws[0] else ws[0] + " " + Join(ws[1..])
  }

  function Simplified(s: string): string {
    Join(Words(s))
  }

  lemma WordsStep(w: string, rest: string)
    requires IsWord(w) && (rest == "" || IsSpace(rest[0]))
    ensures Words(w + rest) == [w] + Words(rest)
  {
    var s := w + rest;
    SpanIs(s, c => !IsSpace(c), |w|);
    assert s[..|w|] == w && s[|w|..] == rest;
  }

  lemma {:induction false} WordsOfJoin(ws: seq<string>)
    requires forall i | 0 <= i < |ws| :: IsWord(ws[i])
    ensures Words(Join(ws)) == ws
  {
    if |ws| == 1 {
      WordsStep(ws[0], "");
      assert ws[0] + "" == ws[0];
    } else if |ws| > 1 {
      WordsOfJoin(ws[1..]);
      var rest := " " + Join(ws[1..]);
      assert Join(ws) == ws[0] + rest;
      assert rest[1..] == Join(ws[1..]);
      WordsStep(ws[0], rest);
    }
  }

  lemma {:induction false} WordsAreWords(s: string)
    ensures forall i | 0 <= i < |Words(s)| :: IsWord(Words(s)[i])
    decreases |s|
  {
    if |s| > 0 {
      if IsSpace(s[0]) {
        WordsAreWords(s[1..]);
      } else {
        var n := Span(s, c => !IsSpace(c));
        WordsAreWords(s[n..]);
        assert IsWord(s[..n]);
      }
    }
  }

  /** Simplifying twice is simplifying once. */
  lemma SimplifiedTwice(s: string)
    ensures Simplified(Simplified(s)) == Simplified(s)
  {
    WordsAreWords(s);
    WordsOfJoin(Words(s));
  }

  // ---------------------------------------------------------------- decimal numbers

  function Decimal(n: nat): (s: string)
    ensures s != "" && AllDigits(s)
  {
    if n < 10 then [('0' as int + n) as char] else Decimal(n / 10) + [('0' as int + n % 10) as char]
  }

  function Value(s: string): nat
    requires AllDigits(s)
  {
    if |s| == 0 then 0 else 10 * Value(s[..|s| - 1]) + (s[|s| - 1] as int - '0' as int)
  }

  lemma {:induction false} DecimalRoundTrip(n: nat)
    ensures Value(Decimal(n)) == n
  {
    var s := Decimal(n);
    if n >= 10 {
      DecimalRoundTrip(n / 10);
      assert s[..|s| - 1] == Decimal(n / 10);
    } else {
      assert s[..0] == "";
    }
  }

  // ---------------------------------------------------------------- the pattern

  /** An absent count, or digits and a unit letter. */
  predicate IsCount(s: string, u: nat, cap: string)
    requires u < 6
  {
    AllDigits(cap) && if cap == "" then s == "" else |s| == |cap| + 1 && s[..|cap|] == cap && IsUnit(s[|cap|], u)
  }

  /** The pattern, from unit `u` on: optional counts in order, white space after all but the last. */
  ghost predicate Match(u: nat, s: string, caps: seq<string>)
    requires u <= 6
    decreases 6 - u
  {
    if u == 6 then s == "" && caps == []
    else
      && |caps| == 6 - u
      && exists count: string, spaces: string, rest: string ::
        Head(u, s, caps[0], count, spaces, rest) && Match(u + 1, rest, caps[1..])
  }

  /** The text splits into a count of unit `u`, white space and a rest. */
  predicate Head(u: nat, s: string, cap: string, count: string, spaces: string, rest: string)
    requires u < 6
  {
    s == count + spaces + rest && IsCount(count, u, cap) && AllSpaces(spaces) && (u == 5 ==> spaces == "")
  }

  /** Whether the text starts with a count of unit `u`. */
  predicate StartsWithCount(u: nat, s: string)
    requires u < 6
  {
    var n := Span(s, IsDigit);
    0 < n < |s| && IsUnit(s[n], u)
  }

  /** The digits of the count of unit `u` the text starts with. */
  function Cap(u: nat, s: string): (cap: string)
    requires u < 6
    ensures AllDigits(cap)
  {
    if StartsWithCount(u, s) then s[..Span(s, IsDigit)] else ""
  }

  function After(u: nat, s: string): string
    requires u < 6
  {
    if StartsWithCount(u, s) then s[Span(s, IsDigit) + 1..] else s
  }

  function Rest(u: nat, s: string): string
    requires u < 6
  {
    if u < 5 then SkipSpaces(After(u, s)) else After(u, s)
  }

  /** The greedy left-to-right recogniser. */
  function Scan(u: nat, s: string): (caps: Option<seq<string>>)
    requires u <= 6
    ensures caps.Some? ==> |caps.value| == 6 - u && forall i | 0 <= i < 6 - u :: AllDigits(caps.value[i])
    decreases 6 - u
  {
    if u == 6 then if s == "" then Some([]) else None
    else
      var more := Scan(u + 1, Rest(u, s));
      if more.None? then None else Some([Cap(u, s)] + more.value)
  }

  lemma MatchFrom(u: nat, s: string, caps: seq<string>, count: string, spaces: string, rest: string)
    requires u < 6 && |caps| == 6 - u
    requires Head(u, s, caps[0], count, spaces, rest) && Match(u + 1, rest, caps[1..])
    ensures Match(u, s, caps)
  {
    hide Head;
  }

  /** What one step of the recogniser takes off a text. */
  lemma ScannedHead(u: nat, s: string) returns (count: string, spaces: string)
    requires u < 6
    ensures Head(u, s, Cap(u, s), count, spaces, Rest(u, s))
  {
    hide After, Cap, Rest, IsCount, AllSpaces;
    count := CountTaken(u, s);
    spaces := SpacesTaken(u, s);
    assert s == count + spaces + Rest(u, s);
  }

  lemma CountTaken(u: nat, s: string) returns (count: string)
    requires u < 6
    ensures s == count + After(u, s) && IsCount(count, u, Cap(u, s))
  {
    hide IsUnit, IsDigit, AllDigits;
    count := "";
    if StartsWithCount(u, s) {
      var n := Span(s, IsDigit);
      count := s[..n + 1];
      assert count[n] == s[n] && count[..n] == s[..n];
    }
  }

  lemma SpacesTaken(u: nat, s: string) returns (spaces: string)
    requires u < 6
    ensures After(u, s) == spaces + Rest(u, s) && AllSpaces(spaces) && (u == 5 ==> spaces == "")
  {
    hide After, IsSpace;
    spaces := if u < 5 then After(u, s)[..Span(After(u, s), IsSpace)] else "";
  }

  lemma {:induction false} ScanIsSound(u: nat, s: string, caps: seq<string>)
    requires u <= 6 && Scan(u, s) == Some(caps)
    ensures Match(u, s, caps)
    decreases 6 - u
  {
    if u < 6 {
      hide Head, Match, Cap, Rest;
      assert caps[0] == Cap(u, s) && Scan(u + 1, Rest(u, s)) == Some(caps[1..]);
      hide Scan;
      var count, spaces := ScannedHead(u, s);
      ScanIsSound(u + 1, Rest(u, s), caps[1..]);
      MatchFrom(u, s, caps, count, spaces, Rest(u, s));
    } else {
      hide Head;
    }
  }

  /** A text that starts with white space starts with no count. */
  lemma SpaceFirst(u: nat, s: string, cap: string, count: string, spaces: string, rest: string)
    requires u < 6 && Head(u, s, cap, count, spaces, rest) && Span(s, IsSpace) > 0
    ensures cap == "" && count == "" && s == spaces + rest
    ensures Head(u, SkipSpaces(s), "", "", "", SkipSpaces(rest))
  {
    hide IsUnit;
    assert IsSpace(s[0]);
    assert cap != "" ==> s[0] == count[0] == cap[0] && IsDigit(s[0]);
    SkipAll(spaces, rest);
  }

  /** White space that is left for a later count might as well be skipped. */
  lemma {:induction false} MatchSkips(u: nat, s: string, caps: seq<string>)
    requires u <= 6 && Match(u, s, caps)
    ensures Match(u, SkipSpaces(s), caps)
    decreases 6 - u
  {
    if u < 6 && Span(s, IsSpace) > 0 {
      var count, spaces, rest :| Head(u, s, caps[0], count, spaces, rest) && Match(u + 1, rest, caps[1..]);
      hide Match, Head, SkipSpaces;
      SpaceFirst(u, s, caps[0], count, spaces, rest);
      MatchSkips(u + 1, rest, caps[1..]);
      MatchFrom(u, SkipSpaces(s), caps, "", "", SkipSpaces(rest));
    }
  }

  lemma NoDigitFirst(s: string, spaces: string, rest: string)
    requires s == spaces + rest && spaces != "" && AllSpaces(spaces)
    ensures !IsDigit(s[0])
  {
    assert s[0] == spaces[0];
  }

  /** A text that starts with digits starts with a count of the unit behind them, or with nothing
      to take off. */
  lemma DigitsFirst(u: nat, s: string, cap: string, count: string, spaces: string, rest: string)
    requires u < 6 && Head(u, s, cap, count, spaces, rest) && Span(s, IsDigit) > 0
    ensures StartsWithCount(u, s) || s == rest
    ensures cap == "" ==> s == rest
  {
    hide IsUnit;
    if cap != "" {
      assert s[|cap|] == count[|cap|];
      assert forall i | 0 <= i < |cap| :: s[i] == cap[i];
      UnitIsNoDigit(s[|cap|], u);
      SpanIs(s, IsDigit, |cap|);
    } else {
      assert IsDigit(s[0]);
      if spaces != "" { NoDigitFirst(s, spaces, rest); }
    }
  }

  lemma UnitIsNoDigit(c: char, u: nat)
    requires u < 6 && IsUnit(c, u)
    ensures !IsDigit(c) && !IsSpace(c)
  {
  }

  /** Digits can only be matched by a count of the unit behind them. */
  lemma {:induction false} DigitsNeedTheirUnit(u: nat, s: string, caps: seq<string>)
    requires u <= 6 && Match(u, s, caps) && Span(s, IsDigit) > 0
    ensures exists v | u <= v < 6 :: StartsWithCount(v, s)
    decreases 6 - u
  {
    hide Match, Head, StartsWithCount, Span, IsDigit;
    if u == 6 {
      MatchedEnd(s, caps);
      NoSpan();
    } else {
      var count, spaces, rest := MatchedHead(u, s, caps);
      DigitsFirst(u, s, caps[0], count, spaces, rest);
      if s == rest {
        DigitsNeedTheirUnit(u + 1, s, caps[1..]);
      }
    }
  }

  lemma NoSpan()
    ensures Span("", IsDigit) == 0
  {
  }

  lemma MatchedEnd(s: string, caps: seq<string>)
    requires Match(6, s, caps)
    ensures s == ""
  {
  }

  lemma MatchedHead(u: nat, s: string, caps: seq<string>) returns (count: string, spaces: string, rest: string)
    requires u < 6 && Match(u, s, caps)
    ensures |caps| == 6 - u && Head(u, s, caps[0], count, spaces, rest) && Match(u + 1, rest, caps[1..])
  {
    count, spaces, rest :| Head(u, s, caps[0], count, spaces, rest) && Match(u + 1, rest, caps[1..]);
  }

  lemma OneUnit(c: char, u: nat, v: nat)
    requires u < 6 && v < 6 && u != v && IsUnit(c, u)
    ensures !IsUnit(c, v)
  {
  }

  /** The recogniser takes off what the pattern does, up to white space left for later counts. */
  lemma SameHead(u: nat, s: string, caps: seq<string>, count: string, spaces: string, rest: string)
    requires u < 6 && |caps| == 6 - u
    requires Head(u, s, caps[0], count, spaces, rest) && Match(u + 1, rest, caps[1..])
    ensures Cap(u, s) == caps[0] && After(u, s) == spaces + rest
  {
    hide Match, IsUnit, IsDigit, IsSpace;
    var cap := caps[0];
    if cap != "" {
      assert s[|cap|] == count[|cap|];
      assert forall i | 0 <= i < |cap| :: s[i] == cap[i];
      UnitIsNoDigit(s[|cap|], u);
      SpanIs(s, IsDigit, |cap|);
      assert s[..|cap|] == cap;
      assert s[|cap| + 1..] == spaces + rest;
    } else {
      assert s == spaces + rest;
      if StartsWithCount(u, s) {
        DigitsFirst(u, s, cap, count, spaces, rest);
        DigitsNeedTheirUnit(u + 1, s, caps[1..]);
        var v :| u + 1 <= v < 6 && StartsWithCount(v, s);
        OneUnit(s[Span(s, IsDigit)], u, v);
        assert false;
      }
    }
  }

  lemma SameStep(u: nat, s: string, caps: seq<string>)
    requires u < 6 && Match(u, s, caps)
    ensures Cap(u, s) == caps[0] && Match(u + 1, Rest(u, s), caps[1..])
  {
    var count, spaces, rest :| Head(u, s, caps[0], count, spaces, rest) && Match(u + 1, rest, caps[1..]);
    hide Match, Cap, After, Span;
    SameHead(u, s, caps, count, spaces, rest);
    SkipAll(spaces, rest);
    MatchSkips(u + 1, rest, caps[1..]);
    assert u == 5 ==> spaces + rest == rest;
  }

  lemma {:induction false} ScanIsComplete(u: nat, s: string, caps: seq<string>)
    requires u <= 6 && Match(u, s, caps)
    ensures Scan(u, s) == Some(caps)
    decreases 6 - u
  {
    hide Head, Cap, Rest;
    if u < 6 {
      SameStep(u, s, caps);
      ScanIsComplete(u + 1, Rest(u, s), caps[1..]);
      hide Match;
      assert caps == [caps[0]] + caps[1..];
    }
  }

  lemma SkipAll(spaces: string, rest: string)
    requires AllSpaces(spaces)
    ensures SkipSpaces(spaces + rest) == SkipSpaces(rest)
  {
    SpanIs(spaces + rest, IsSpace, |spaces| + Span(rest, IsSpace));
  }

  /** The recogniser finds the captures of the pattern, which are unique, and nothing else. */
  lemma RecogniserIsExact(s: string, caps: seq<string>)
    ensures Scan(0, s) == Some(caps) <==> Match(0, s, caps)
  {
    hide Scan, Match;
    if Scan(0, s) == Some(caps) { ScanIsSound(0, s, caps); }
    if Match(0, s, caps) { ScanIsComplete(0, s, caps); }
  }

  // ---------------------------------------------------------------- writing counts

  /** A letter for each unit, in either case. */
  predicate AreLetters(letters: string) {
    |letters| == 6 && forall u | 0 <= u < 6 :: IsUnit(letters[u], u)
  }

  /** The non-empty counts from unit `u` on, each with its letter. */
  function Pieces(caps: seq<string>, letters: string, u: nat): seq<string>
    requires |caps| == 6 && |letters| == 6 && u <= 6
    decreases 6 - u
  {
    if u == 6 then []
    else (if caps[u] != "" then [caps[u] + [letters[u]]] else []) + Pieces(caps, letters, u + 1)
  }

  lemma CountIsWord(cap: string, u: nat, letter: char)
    requires u < 6 && AllDigits(cap) && IsUnit(letter, u)
    ensures IsWord(cap + [letter])
  {
  }

  lemma {:induction false} PiecesAreWords(caps: seq<string>, letters: string, u: nat)
    requires |caps| == 6 && u <= 6 && AreLetters(letters) && forall i | 0 <= i < 6 :: AllDigits(caps[i])
    ensures forall i | 0 <= i < |Pieces(caps, letters, u)| :: IsWord(Pieces(caps, letters, u)[i])
    decreases 6 - u
  {
    hide IsWord, AllDigits, IsUnit;
    if u < 6 {
      PiecesAreWords(caps, letters, u + 1);
      CountIsWord(caps[u], u, letters[u]);
    }
  }

  lemma JoinSplit(ps: seq<string>)
    ensures Join(ps) ==
      if ps == [] then "" else if ps[1..] == [] then ps[0] else ps[0] + " " + Join(ps[1..])
  {
  }

  lemma PresentHead(cap: string, letter: char, u: nat, spaces: string, rest: string)
    requires cap != "" && AllDigits(cap) && u < 6 && IsUnit(letter, u) && AllSpaces(spaces) && (u == 5 ==> spaces == "")
    ensures Head(u, cap + [letter] + spaces + rest, cap, cap + [letter], spaces, rest)
  {
    hide AllDigits, IsUnit, AllSpaces;
    assert (cap + [letter])[..|cap|] == cap;
  }

  lemma PiecesStep(caps: seq<string>, letters: string, u: nat)
    requires |caps| == 6 && |letters| == 6 && u < 6
    ensures Pieces(caps, letters, u) ==
      (if caps[u] != "" then [caps[u] + [letters[u]]] else []) + Pieces(caps, letters, u + 1)
    ensures Pieces(caps, letters, 6) == []
  {
  }

  /** The first count of a text, if it is present, and what is left. */
  lemma WrittenHead(caps: seq<string>, letters: string, u: nat) returns (count: string, spaces: string)
    requires |caps| == 6 && u < 6 && AreLetters(letters) && forall i | 0 <= i < 6 :: AllDigits(caps[i])
    ensures Head(u, Join(Pieces(caps, letters, u)), caps[u], count, spaces, Join(Pieces(caps, letters, u + 1)))
  {
    hide AllDigits, IsUnit, Join, Pieces, Head;
    var ps, rest := Pieces(caps, letters, u), Pieces(caps, letters, u + 1);
    PiecesStep(caps, letters, u);
    JoinSplit(rest);
    count, spaces := "", "";
    if caps[u] == "" {
      assert ps == rest;
      AbsentHead(u, Join(rest));
    } else {
      count := caps[u] + [letters[u]];
      spaces := if rest == [] then "" else " ";
      JoinSplit(ps);
      assert ps[0] == count && ps[1..] == rest;
      assert Join(ps) == count + spaces + Join(rest);
      PresentHead(caps[u], letters[u], u, spaces, Join(rest));
    }
  }

  lemma AbsentHead(u: nat, rest: string)
    requires u < 6
    ensures Head(u, rest, "", "", "", rest)
  {
    assert "" + "" + rest == rest;
  }

  lemma {:induction false} WrittenMatches(caps: seq<string>, letters: string, u: nat)
    requires |caps| == 6 && u <= 6 && AreLetters(letters) && forall i | 0 <= i < 6 :: AllDigits(caps[i])
    ensures Match(u, Join(Pieces(caps, letters, u)), caps[u..])
    decreases 6 - u
  {
    hide AllDigits, Head, IsUnit;
    if u < 6 {
      hide Join, Match, Pieces;
      var count, spaces := WrittenHead(caps, letters, u);
      WrittenMatches(caps, letters, u + 1);
      MatchFrom(u, Join(Pieces(caps, letters, u)), caps[u..], count, spaces, Join(Pieces(caps, letters, u + 1)));
    }
  }

  /** Written counts are recognised again, in whatever case their letters are. */
  lemma WrittenThenScanned(caps: seq<string>, letters: string)
    requires |caps| == 6 && AreLetters(letters) && forall i | 0 <= i < 6 :: AllDigits(caps[i])
    ensures Scan(0, Join(Pieces(caps, letters, 0))) == Some(caps)
  {
    hide Scan, Match, Join, Pieces, IsUnit, AllDigits;
    WrittenMatches(caps, letters, 0);
    assert caps[0..] == caps;
    RecogniserIsExact(Join(Pieces(caps, letters, 0)), caps);
  }
}
