/** How keys are named on D-Bus. */
module ObjectPaths {

  const CORE_PREFIX := "/org/maemo/contextkit/"

  predicate IsPlain(c: char) {
    'A' <= c <= 'Z' || 'a' <= c <= 'z' || '0' <= c <= '9'
  }

  function PathChar(c: char): char {
    if c == '.' || c == '/' then '/' else if IsPlain(c) then c else '_'
  }

  function PathChars(s: string): (t: string)
    ensures |t| == |s|
  {
    seq(|s|, i requires 0 <= i < |s| => PathChar(s[i]))
  }

  predicate IsAbsolute(key: string) {
    |key| > 0 && key[0] == '/'
  }

  /** Keys that begin with a slash are object paths already; dots become slashes in others, and all
      other characters that a path may not hold become underscores. */
  function KeyToPath(key: string): string {
    if IsAbsolute(key) then key else CORE_PREFIX + PathChars(key)
  }

  /** A key that is no path yet is put below the prefix, character by character. */
  lemma PathOfKey(key: string)
    ensures key != "" && key[0] == '/' ==> KeyToPath(key) == key
    ensures key == "" || key[0] != '/' ==>
      && |KeyToPath(key)| == 22 + |key| && KeyToPath(key)[..22] == "/org/maemo/contextkit/"
      && forall i | 0 <= i < |key| ::
        var c, d := key[i], KeyToPath(key)[22 + i];
        if c == '.' || c == '/' then d == '/'
        else if 'A' <= c <= 'Z' || 'a' <= c <= 'z' || '0' <= c <= '9' then d == c
        else d == '_'
  {
    assert |CORE_PREFIX| == 22;
  }

  /** Characters that a path cannot tell apart. */
  predicate Alike(c: char, d: char) {
    || c == d
    || (c in "./" && d in "./")
    || (!IsPlain(c) && !IsPlain(d) && c !in "./" && d !in "./")
  }

  /** A character that a path holds unchanged. */
  predicate IsPathChar(c: char) {
    IsPlain(c) || c == '_' || c == '/'
  }

  predicate AllAlike(a: string, b: string) {
    |a| == |b| && forall i | 0 <= i < |a| :: Alike(a[i], b[i])
  }

  /** The absolute key spells out the path of the other one. */
  predicate SpellsOut(a: string, b: string) {
    && |a| == |CORE_PREFIX| + |b| && CORE_PREFIX <= a
    && AllAlike(a[|CORE_PREFIX|..], b)
    && forall i | |CORE_PREFIX| <= i < |a| :: IsPathChar(a[i])
  }

  lemma AlikeMeansSamePathChar(c: char, d: char)
    ensures Alike(c, d) <==> PathChar(c) == PathChar(d)
    ensures PathChar(c) == d <==> Alike(d, c) && IsPathChar(d)
  {
  }

  lemma SamePathChars(a: string, b: string)
    ensures PathChars(a) == PathChars(b) <==> AllAlike(a, b)
    ensures PathChars(b) == a <==> AllAlike(a, b) && forall i | 0 <= i < |a| :: IsPathChar(a[i])
  {
    hide PathChar, Alike, IsPathChar;
    forall c, d ensures Alike(c, d) <==> PathChar(c) == PathChar(d)
      ensures PathChar(c) == d <==> Alike(d, c) && IsPathChar(d)
    {
      AlikeMeansSamePathChar(c, d);
    }
    if PathChars(a) == PathChars(b) {
      assert |a| == |b|;
      forall i | 0 <= i < |a| ensures Alike(a[i], b[i]) {
        assert PathChars(a)[i] == PathChars(b)[i];
      }
    }
    if PathChars(b) == a {
      forall i | 0 <= i < |a| ensures Alike(a[i], b[i]) && IsPathChar(a[i]) {
        assert PathChars(b)[i] == a[i];
      }
    }
  }

  /** Two keys share a path exactly if they are the same, if neither is absolute and they differ only
      between characters a path cannot tell apart, or if one is absolute and spells out the other. */
  lemma SharedPaths(a: string, b: string)
    ensures KeyToPath(a) == KeyToPath(b) <==>
      if IsAbsolute(a) == IsAbsolute(b) then a == b || (!IsAbsolute(a) && AllAlike(a, b))
      else if IsAbsolute(a) then SpellsOut(a, b)
      else SpellsOut(b, a)
  {
    hide PathChars, AllAlike, IsPathChar;
    SamePathChars(a, b);
    if IsAbsolute(a) == IsAbsolute(b) {
      PrefixCancels(PathChars(a), PathChars(b));
      AlikeItself(a);
    } else if IsAbsolute(a) {
      SpelledOut(a, b);
    } else {
      SpelledOut(b, a);
    }
  }

  lemma AlikeItself(a: string)
    ensures AllAlike(a, a)
  {
  }

  lemma PrefixCancels(s: string, t: string)
    ensures CORE_PREFIX + s == CORE_PREFIX + t <==> s == t
  {
    if CORE_PREFIX + s == CORE_PREFIX + t {
      assert s == (CORE_PREFIX + s)[|CORE_PREFIX|..] == (CORE_PREFIX + t)[|CORE_PREFIX|..] == t;
    }
  }

  lemma SpelledOut(a: string, b: string)
    ensures a == CORE_PREFIX + PathChars(b) <==> SpellsOut(a, b)
  {
    hide PathChars, AllAlike, IsPathChar;
    if CORE_PREFIX <= a {
      var rest := a[|CORE_PREFIX|..];
      assert a == CORE_PREFIX + rest;
      SamePathChars(rest, b);
      PrefixCancels(rest, PathChars(b));
      assert (forall i | 0 <= i < |rest| :: IsPathChar(rest[i])) <==>
        (forall i | |CORE_PREFIX| <= i < |a| :: IsPathChar(a[i])) by {
        forall i | |CORE_PREFIX| <= i < |a| ensures a[i] == rest[i - |CORE_PREFIX|] {}
        forall i | 0 <= i < |rest| ensures rest[i] == a[i + |CORE_PREFIX|] {}
      }
      if SpellsOut(a, b) {
        assert PathChars(b) == rest;
      }
    }
  }
}
