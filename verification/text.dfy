/** ASCII models of the string helpers the chat service relies on: Python's
    str.strip, str.isalnum and str.lower, Django's slugify, case-insensitive
    substring search (the `icontains` lookup) and the code-point ordering that
    sorted() applies to strings. Non-ASCII text is outside these models.
    The steps of slugify are plain functions; what they guarantee is stated in
    the lemmas next to them. */
module Text {

  /** Python's str.isspace restricted to ASCII: tab, line feed, vertical tab,
      form feed, carriage return, the separators 0x1c-0x1f and space. */
  predicate IsSpace(c: char) {
    (9 <= c as int <= 13) || (28 <= c as int <= 32)
  }

  /** Every character of `s` satisfies `p`. */
  predicate All(s: string, p: char -> bool) {
    forall i :: 0 <= i < |s| ==> p(s[i])
  }

  /** A string that str.strip() empties: only whitespace, or nothing at all. */
  predicate IsBlank(s: string) {
    All(s, IsSpace)
  }

  // ---------------------------------------------------------------------
  // stripping

  /** Removes the leading characters that satisfy `drop`. */
  function TrimStart(s: string, drop: char -> bool): (r: string)
    ensures |r| <= |s|
  {
    if s != [] && drop(s[0]) then TrimStart(s[1..], drop) else s
  }

  /** TrimStart returns a suffix of `s` that does not start with a dropped
      character, and every character it removed is dropped. */
  lemma {:induction false} TrimStartFacts(s: string, drop: char -> bool)
    ensures var r := TrimStart(s, drop);
      && r == s[|s| - |r|..]
      && (r == [] || !drop(r[0]))
      && (forall i :: 0 <= i < |s| - |r| ==> drop(s[i]))
  {
    if s != [] && drop(s[0]) {
      TrimStartFacts(s[1..], drop);
      var r := TrimStart(s, drop);
      assert r == TrimStart(s[1..], drop);
      forall i | 1 <= i < |s| - |r|
        ensures drop(s[i])
      {
        assert s[i] == s[1..][i - 1];
      }
    }
  }

  /** Removes the trailing characters that satisfy `drop`. */
  function TrimEnd(s: string, drop: char -> bool): (r: string)
    ensures |r| <= |s|
  {
    if s != [] && drop(s[|s| - 1]) then TrimEnd(s[..|s| - 1], drop) else s
  }

  /** TrimEnd returns a prefix of `s` that does not end with a dropped
      character, and every character it removed is dropped. */
  lemma {:induction false} TrimEndFacts(s: string, drop: char -> bool)
    ensures var r := TrimEnd(s, drop);
      && r == s[..|r|]
      && (r == [] || !drop(r[|r| - 1]))
      && (forall i :: |r| <= i < |s| ==> drop(s[i]))
  {
    if s != [] && drop(s[|s| - 1]) {
      var init := s[..|s| - 1];
      TrimEndFacts(init, drop);
      var r := TrimEnd(s, drop);
      assert r == TrimEnd(init, drop);
      assert r == init[..|r|];
      forall i | |r| <= i < |s| - 1
        ensures drop(s[i])
      {
        assert s[i] == init[i];
      }
    }
  }

  /** Python's str.strip(chars): removes the characters satisfying `drop` from
      both ends. */
  function TrimBoth(s: string, drop: char -> bool): (r: string)
    ensures |r| <= |s|
  {
    TrimEnd(TrimStart(s, drop), drop)
  }

  /** TrimBoth returns the slice of `s` that starts at `off`: it is empty exactly
      when every character is dropped, and otherwise neither starts nor ends
      with a dropped character. */
  lemma TrimBothFacts(s: string, drop: char -> bool)
    ensures var r := TrimBoth(s, drop);
      var off := |s| - |TrimStart(s, drop)|;
      && (r == [] <==> All(s, drop))
      && (r != [] ==> !drop(r[0]) && !drop(r[|r| - 1]))
      && off + |r| <= |s| && r == s[off..off + |r|]
  {
    var t := TrimStart(s, drop);
    TrimStartFacts(s, drop);
    TrimEndFacts(t, drop);
    var r := TrimEnd(t, drop);
    var off := |s| - |t|;
    assert t == s[off..] && r == t[..|r|];
    if r == [] {
      assert All(t, drop);
      assert t == [];
    } else {
      assert r[0] == t[0] == s[off];
      assert !All(s, drop);
    }
  }

  /** Python's str.strip() with no argument. */
  function Strip(s: string): (r: string)
    ensures r == [] <==> IsBlank(s)
    ensures r != [] ==> !IsSpace(r[0]) && !IsSpace(r[|r| - 1])
    ensures |r| <= |s|
  {
    TrimBothFacts(s, IsSpace);
    TrimBoth(s, IsSpace)
  }

  // ---------------------------------------------------------------------
  // case and character classes

  predicate IsUpper(c: char) {
    'A' <= c <= 'Z'
  }

  function ToLower(c: char): (d: char)
    ensures !IsUpper(d)
    ensures IsUpper(c) || d == c
  {
    if IsUpper(c) then (c as int + 32) as char else c
  }

  /** Python's str.lower() on ASCII letters. */
  function Lower(s: string): string {
    seq(|s|, i requires 0 <= i < |s| => ToLower(s[i]))
  }

  predicate IsDigit(c: char) {
    '0' <= c <= '9'
  }

  predicate IsAlnumChar(c: char) {
    'a' <= c <= 'z' || IsUpper(c) || IsDigit(c)
  }

  /** Python's str.isalnum(): non-empty and made of letters and digits only. */
  predicate IsAlnum(s: string) {
    |s| > 0 && All(s, IsAlnumChar)
  }

  /** `needle` occurs as a contiguous piece of `hay` (Python's `in` on strings). */
  predicate Contains(hay: string, needle: string)
    decreases |hay|
  {
    needle <= hay || (hay != [] && Contains(hay[1..], needle))
  }

  /** The `icontains` lookup: case-insensitive substring test. */
  predicate IContains(hay: string, needle: string) {
    Contains(Lower(hay), Lower(needle))
  }

  /** The empty query is contained in every string, whatever its case. */
  lemma IContainsEmpty(hay: string)
    ensures IContains(hay, "")
  {
    assert Lower("") == [];
  }

  // ---------------------------------------------------------------------
  // slugify

  /** Characters of the regular expression class \w on ASCII text. */
  predicate IsWordChar(c: char) {
    IsAlnumChar(c) || c == '_'
  }

  /** The class [-\s] whose runs slugify replaces by a single hyphen. */
  predicate IsSeparator(c: char) {
    c == '-' || IsSpace(c)
  }

  /** The characters slugify trims from both ends at the very last step. */
  predicate IsDashOrUnderscore(c: char) {
    c == '-' || c == '_'
  }

  /** Removes every character outside [\w\s-] (the substitution of the pattern
      [^\w\s-] by the empty string). Characters outside ASCII are removed too:
      slugify encodes its input to ASCII, ignoring what does not fit. */
  function KeepSlugChars(s: string): string {
    if s == [] then []
    else if IsWordChar(s[0]) || IsSeparator(s[0]) then [s[0]] + KeepSlugChars(s[1..])
    else KeepSlugChars(s[1..])
  }

  /** Every character KeepSlugChars keeps is a word character or a separator
      taken from its input. */
  lemma {:induction false} KeepSlugCharsFacts(s: string)
    ensures forall c :: c in KeepSlugChars(s) ==> (IsWordChar(c) || IsSeparator(c)) && c in s
  {
    if s != [] {
      KeepSlugCharsFacts(s[1..]);
      assert forall c :: c in s[1..] ==> c in s;
    }
  }

  /** No two hyphens in a row. */
  predicate NoDoubleHyphen(s: string) {
    forall i :: 0 <= i < |s| - 1 ==> !(s[i] == '-' && s[i + 1] == '-')
  }

  /** Every character of `r` is a hyphen or a non-separator character of `s`. */
  predicate HyphensOrKeptFrom(r: string, s: string) {
    forall c :: c in r ==> c == '-' || (c in s && !IsSeparator(c))
  }

  /** Putting `c` in front keeps a string free of doubled hyphens unless both
      `c` and the old first character are hyphens. */
  lemma ConsNoDoubleHyphen(c: char, t: string)
    requires NoDoubleHyphen(t) && (c == '-' ==> t == [] || t[0] != '-')
    ensures NoDoubleHyphen([c] + t)
  {
    var r := [c] + t;
    forall i | 0 <= i < |r| - 1
      ensures !(r[i] == '-' && r[i + 1] == '-')
    {
      if i > 0 {
        assert r[i] == t[i - 1] && r[i + 1] == t[i];
      }
    }
  }

  /** Replaces every maximal run of characters from [-\s] by one hyphen. */
  function Collapse(s: string): string
    decreases |s|
  {
    if s == [] then []
    else if IsSeparator(s[0]) then "-" + Collapse(TrimStart(s[1..], IsSeparator))
    else [s[0]] + Collapse(s[1..])
  }

  /** Collapse returns a hyphen first exactly when `s` starts with a separator,
      never two hyphens in a row, and takes every other character from `s`. */
  lemma {:induction false} CollapseFacts(s: string)
    ensures var r := Collapse(s);
      && (r == [] <==> s == [])
      && (r != [] ==> (r[0] == '-' <==> IsSeparator(s[0])))
      && NoDoubleHyphen(r)
      && HyphensOrKeptFrom(r, s)
    decreases |s|
  {
    if s != [] {
      if IsSeparator(s[0]) {
        var rest := TrimStart(s[1..], IsSeparator);
        TrimStartFacts(s[1..], IsSeparator);
        CollapseFacts(rest);
        assert forall c :: c in rest ==> c in s;
        ConsNoDoubleHyphen('-', Collapse(rest));
      } else {
        CollapseFacts(s[1..]);
        assert forall c :: c in s[1..] ==> c in s;
        ConsNoDoubleHyphen(s[0], Collapse(s[1..]));
      }
    }
  }

  /** Django's slugify on ASCII text: lower-case, drop characters outside
      [\w\s-], collapse runs of [-\s] into '-', strip '-' and '_' from both ends. */
  function Slugify(s: string): string {
    TrimBoth(Collapse(KeepSlugChars(Lower(s))), IsDashOrUnderscore)
  }

  predicate IsSlugChar(c: char) {
    'a' <= c <= 'z' || IsDigit(c) || c == '_' || c == '-'
  }

  /** The shape of everything slugify returns: lower-case letters, digits, '_'
      and '-', no two hyphens in a row, no '-' or '_' at either end. */
  predicate IsSlug(s: string) {
    && All(s, IsSlugChar)
    && NoDoubleHyphen(s)
    && (s != [] ==> !IsDashOrUnderscore(s[0]) && !IsDashOrUnderscore(s[|s| - 1]))
  }

  /** Trimming the ends keeps the characters and the single hyphens of what
      it trims, since it returns a slice. */
  lemma TrimBothKeepsSlugChars(c: string, drop: char -> bool)
    requires All(c, IsSlugChar) && NoDoubleHyphen(c)
    ensures All(TrimBoth(c, drop), IsSlugChar) && NoDoubleHyphen(TrimBoth(c, drop))
  {
    TrimBothFacts(c, drop);
    var r := TrimBoth(c, drop);
    var off := |c| - |TrimStart(c, drop)|;
    forall i | 0 <= i < |r|
      ensures IsSlugChar(r[i])
    {
      assert r[i] == c[off + i];
    }
    forall i | 0 <= i < |r| - 1
      ensures !(r[i] == '-' && r[i + 1] == '-')
    {
      assert r[i] == c[off + i] && r[i + 1] == c[off + i + 1];
    }
  }

  /** After lower-casing, filtering and collapsing only slug characters remain,
      with no two hyphens in a row. */
  lemma CollapsedIsSlugText(s: string)
    ensures All(Collapse(KeepSlugChars(Lower(s))), IsSlugChar)
    ensures NoDoubleHyphen(Collapse(KeepSlugChars(Lower(s))))
  {
    var lowered := Lower(s);
    var kept := KeepSlugChars(lowered);
    var collapsed := Collapse(kept);
    KeepSlugCharsFacts(lowered);
    CollapseFacts(kept);
    forall c | c in lowered
      ensures !IsUpper(c)
    {
      var i :| 0 <= i < |lowered| && lowered[i] == c;
      assert c == ToLower(s[i]);
    }
    forall i | 0 <= i < |collapsed|
      ensures IsSlugChar(collapsed[i])
    {
      if collapsed[i] != '-' {
        assert collapsed[i] in collapsed;
        assert collapsed[i] in kept;
      }
    }
  }

  /** Every slug slugify produces has the slug shape. */
  lemma SlugifyIsSlug(s: string)
    ensures IsSlug(Slugify(s))
  {
    var collapsed := Collapse(KeepSlugChars(Lower(s)));
    CollapsedIsSlugText(s);
    TrimBothKeepsSlugChars(collapsed, IsDashOrUnderscore);
    TrimBothFacts(collapsed, IsDashOrUnderscore);
  }

  lemma {:induction false} KeepSlugCharsKeepsSlugChars(s: string)
    requires All(s, IsSlugChar)
    ensures KeepSlugChars(s) == s
  {
    if s != [] {
      assert All(s[1..], IsSlugChar) by {
        forall i | 0 <= i < |s[1..]|
          ensures IsSlugChar(s[1..][i])
        {
          assert s[1..][i] == s[i + 1];
        }
      }
      KeepSlugCharsKeepsSlugChars(s[1..]);
      assert IsSlugChar(s[0]);
      assert s == [s[0]] + s[1..];
    }
  }

  lemma {:induction false} CollapseKeepsSlugs(s: string)
    requires All(s, IsSlugChar) && NoDoubleHyphen(s)
    ensures Collapse(s) == s
  {
    if s != [] {
      var tail := s[1..];
      forall i | 0 <= i < |tail|
        ensures IsSlugChar(tail[i])
      {
        assert tail[i] == s[i + 1];
      }
      forall i | 0 <= i < |tail| - 1
        ensures !(tail[i] == '-' && tail[i + 1] == '-')
      {
        assert tail[i] == s[i + 1] && tail[i + 1] == s[i + 2];
      }
      CollapseKeepsSlugs(tail);
      if IsSeparator(s[0]) {
        assert s[0] == '-';
        assert tail == [] || (tail[0] == s[1] && !IsSeparator(tail[0]));
        assert TrimStart(tail, IsSeparator) == tail;
        assert Collapse(s) == "-" + tail;
      } else {
        assert Collapse(s) == [s[0]] + tail;
      }
      assert s == [s[0]] + tail;
    }
  }

  /** Slugify leaves an existing slug as it is. */
  lemma SlugifyKeepsSlugs(s: string)
    requires IsSlug(s)
    ensures Slugify(s) == s
  {
    assert Lower(s) == s;
    KeepSlugCharsKeepsSlugChars(s);
    CollapseKeepsSlugs(s);
    assert TrimStart(s, IsDashOrUnderscore) == s;
    assert TrimEnd(s, IsDashOrUnderscore) == s;
  }

  /** Slugifying twice gives the slug of the first pass. */
  lemma SlugifyIdempotent(s: string)
    ensures Slugify(Slugify(s)) == Slugify(s)
  {
    SlugifyIsSlug(s);
    SlugifyKeepsSlugs(Slugify(s));
  }

  // ---------------------------------------------------------------------
  // ordering of strings, as Python's `<` compares them

  /** Lexicographic order by code point: `a` is a prefix of `b`, or the first
      differing character of `a` is smaller. */
  predicate LexLe(a: string, b: string)
    decreases |a|
  {
    a == [] || (b != [] && (a[0] < b[0] || (a[0] == b[0] && LexLe(a[1..], b[1..]))))
  }

  /** Python's `a < b` on strings. */
  predicate LexLess(a: string, b: string) {
    LexLe(a, b) && a != b
  }

  lemma {:induction false} LexLeReflexive(a: string)
    ensures LexLe(a, a)
  {
    if a != [] {
      LexLeReflexive(a[1..]);
    }
  }

  lemma {:induction false} LexLeTotal(a: string, b: string)
    ensures LexLe(a, b) || LexLe(b, a)
  {
    if a != [] && b != [] && a[0] == b[0] {
      LexLeTotal(a[1..], b[1..]);
    }
  }

  lemma {:induction false} LexLeAntisymmetric(a: string, b: string)
    requires LexLe(a, b) && LexLe(b, a)
    ensures a == b
  {
    if a != [] {
      LexLeAntisymmetric(a[1..], b[1..]);
      assert a == [a[0]] + a[1..];
      assert b == [b[0]] + b[1..];
    }
  }
}
