/**
 * The Python string operations the harness uses: `sep.join(parts)`,
 * ASCII `s.lower()` and `s.replace("\n", "")`. `Split` models Python's
 * `s.split(sep)`, which the harness does not call; it is here only to state
 * that the schema text has one line per table.
 */
module Text {

  /** Python's `sep.join(parts)`. */
  function Join(sep: string, parts: seq<string>): string
    decreases |parts|
  {
    if |parts| == 0 then ""
    else if |parts| == 1 then parts[0]
    else Join(sep, parts[..|parts| - 1]) + sep + parts[|parts| - 1]
  }

  /** The first part always opens the joined text. */
  lemma {:induction false} JoinStartsWithFirst(sep: string, parts: seq<string>)
    requires parts != []
    ensures |parts[0]| <= |Join(sep, parts)|
    ensures Join(sep, parts)[..|parts[0]|] == parts[0]
    decreases |parts|
  {
    if |parts| > 1 {
      var init := parts[..|parts| - 1];
      JoinStartsWithFirst(sep, init);
      assert init[0] == parts[0];
      var j := Join(sep, init);
      assert Join(sep, parts) == j + sep + parts[|parts| - 1];
      assert (j + sep + parts[|parts| - 1])[..|parts[0]|] == j[..|parts[0]|];
    }
  }

  /** Appending one part adds exactly one separator (or none, to an empty list). */
  lemma JoinAppend(sep: string, parts: seq<string>, last: string)
    ensures Join(sep, parts + [last]) == if parts == [] then last else Join(sep, parts) + sep + last
  {
    assert (parts + [last])[..|parts|] == parts;
  }

  /** A character absent from the separator and from every part is absent from the joined text. */
  lemma {:induction false} JoinAvoids(c: char, sep: string, parts: seq<string>)
    requires c !in sep
    requires forall i :: 0 <= i < |parts| ==> c !in parts[i]
    ensures c !in Join(sep, parts)
    decreases |parts|
  {
    if |parts| > 1 {
      JoinAvoids(c, sep, parts[..|parts| - 1]);
    }
  }

  /** Reading one more character `c`: a separator opens a new piece, any other character extends the last one. */
  function Extend(pieces: seq<string>, c: char, sep: char): (r: seq<string>)
    requires |pieces| >= 1
    ensures |r| >= 1
  {
    if c == sep then pieces + [""] else pieces[..|pieces| - 1] + [pieces[|pieces| - 1] + [c]]
  }

  /**
   * Python's `s.split(sep)` for a one-character separator: the pieces between
   * occurrences of `sep`, so `""` splits into `[""]`.
   */
  function Split(s: string, sep: char): (r: seq<string>)
    ensures |r| >= 1
    decreases |s|
  {
    if s == [] then [""] else Extend(Split(s[..|s| - 1], sep), s[|s| - 1], sep)
  }

  /** Text without the separator is one piece. */
  lemma {:induction false} SplitWithoutSeparator(s: string, sep: char)
    requires sep !in s
    ensures Split(s, sep) == [s]
    decreases |s|
  {
    if s != [] {
      SplitWithoutSeparator(s[..|s| - 1], sep);
      assert s[..|s| - 1] + [s[|s| - 1]] == s;
    }
  }

  /** Splitting at one occurrence of the separator splits each side independently. */
  lemma {:induction false} SplitAtSeparator(x: string, sep: char, y: string)
    ensures Split(x + [sep] + y, sep) == Split(x, sep) + Split(y, sep)
    decreases |y|
  {
    if y == [] {
      assert x + [sep] + y == x + [sep];
      SplitSnoc(x, sep, sep);
    } else {
      var y', d := y[..|y| - 1], y[|y| - 1];
      assert y == y' + [d];
      assert x + [sep] + y == (x + [sep] + y') + [d];
      SplitAtSeparator(x, sep, y');
      SplitSnoc(x + [sep] + y', d, sep);
      SplitSnoc(y', d, sep);
      ExtendAppend(Split(x, sep), Split(y', sep), d, sep);
    }
  }

  /** The defining equation of `Split` for a text ending in `d`. */
  lemma SplitSnoc(init: string, d: char, sep: char)
    ensures Split(init + [d], sep) == Extend(Split(init, sep), d, sep)
  {
    assert (init + [d])[..|init|] == init;
  }

  /** Reading a character affects only the last of the pieces. */
  lemma ExtendAppend(sx: seq<string>, sy: seq<string>, d: char, sep: char)
    requires |sy| >= 1
    ensures Extend(sx + sy, d, sep) == sx + Extend(sy, d, sep)
  {
    var all := sx + sy;
    if d != sep {
      assert all[..|all| - 1] == sx + sy[..|sy| - 1];
    }
  }

  /** `"\n".join` and `split("\n")` are inverse on non-empty lists of newline-free parts. */
  lemma {:induction false} SplitJoin(sep: char, parts: seq<string>)
    requires parts != []
    requires forall i :: 0 <= i < |parts| ==> sep !in parts[i]
    ensures Split(Join([sep], parts), sep) == parts
    decreases |parts|
  {
    var last := parts[|parts| - 1];
    SplitWithoutSeparator(last, sep);
    if |parts| > 1 {
      var init := parts[..|parts| - 1];
      SplitJoin(sep, init);
      assert Join([sep], parts) == Join([sep], init) + [sep] + last;
      SplitAtSeparator(Join([sep], init), sep, last);
      assert init + [last] == parts;
    }
  }

  /** ASCII case folding of one character, as `str.lower` does for ASCII letters. */
  function LowerChar(c: char): char
  {
    if 'A' <= c <= 'Z' then (c as int + 32) as char else c
  }

  /** Python's `s.lower()`, restricted to ASCII letters. */
  function Lower(s: string): (r: string)
    ensures |r| == |s|
    ensures forall i :: 0 <= i < |s| ==> r[i] == LowerChar(s[i])
    decreases |s|
  {
    if s == [] then [] else Lower(s[..|s| - 1]) + [LowerChar(s[|s| - 1])]
  }

  /** Lower-casing twice is lower-casing once. */
  lemma LowerIdempotent(s: string)
    ensures Lower(Lower(s)) == Lower(s)
  {
  }

  /** The case-insensitive comparison `a.lower() == b.lower()`. */
  predicate SameIgnoringCase(a: string, b: string)
  {
    Lower(a) == Lower(b)
  }

  /** Two texts compare equal ignoring case exactly when they agree letter by letter after folding. */
  lemma SameIgnoringCaseIff(a: string, b: string)
    ensures SameIgnoringCase(a, b) <==>
      |a| == |b| && forall i :: 0 <= i < |a| ==> LowerChar(a[i]) == LowerChar(b[i])
  {
    if |a| == |b| && forall i :: 0 <= i < |a| ==> LowerChar(a[i]) == LowerChar(b[i]) {
      assert forall i :: 0 <= i < |a| ==> Lower(a)[i] == Lower(b)[i];
    }
  }

  /** Python's `s.replace("\n", "")`. */
  function StripNewlines(s: string): (r: string)
    ensures '\n' !in r
    ensures '\n' !in s ==> r == s
    ensures forall c :: c != '\n' ==> multiset(r)[c] == multiset(s)[c]
    decreases |s|
  {
    if s == [] then []
    else
      var c := s[|s| - 1];
      assert s == s[..|s| - 1] + [c];
      StripNewlines(s[..|s| - 1]) + (if c == '\n' then [] else [c])
  }

  /** Stripping works piece by piece, so every other character keeps its place in the order. */
  lemma {:induction false} StripNewlinesConcat(a: string, b: string)
    ensures StripNewlines(a + b) == StripNewlines(a) + StripNewlines(b)
    decreases |b|
  {
    if b == [] {
      assert a + b == a;
    } else {
      var b' := b[..|b| - 1];
      assert (a + b)[..|a + b| - 1] == a + b';
      var d := b[|b| - 1];
      assert (a + b)[|a + b| - 1] == d;
      assert b[..|b| - 1] == b';
      StripNewlinesConcat(a, b');
      var tail := if d == '\n' then [] else [d];
      assert StripNewlines(a + b) == StripNewlines(a + b') + tail;
      assert StripNewlines(b) == StripNewlines(b') + tail;
    }
  }

  /** Stripping an already stripped text changes nothing. */
  lemma StripNewlinesIdempotent(s: string)
    ensures StripNewlines(StripNewlines(s)) == StripNewlines(s)
  {
  }
}
