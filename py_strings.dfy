/**
 * The Python string and list built-ins the query generators rely on:
 * `str.lower`, `str.strip`, `str.lstrip(chars)`, `str.split(sep)`,
 * `str.splitlines`, `str.replace` and the slice `xs[:n]`.
 */
module PyStrings {

  function Min(a: int, b: int): int { if a <= b then a else b }
  function Max(a: int, b: int): int { if a >= b then a else b }

  /** `str.lower` on one character: A-Z map to a-z, everything else is kept. */
  function LowerChar(c: char): char {
    if 'A' <= c <= 'Z' then (c as int + 32) as char else c
  }

  /** `str.lower`, character by character. */
  function Lower(s: string): (r: string)
    ensures |r| == |s|
    ensures forall i :: 0 <= i < |s| ==> r[i] == LowerChar(s[i])
    ensures forall i :: 0 <= i < |r| ==> !('A' <= r[i] <= 'Z')
  {
    if |s| == 0 then "" else [LowerChar(s[0])] + Lower(s[1..])
  }

  /** Lowering twice is lowering once. */
  lemma LowerIdempotent(s: string)
    ensures Lower(Lower(s)) == Lower(s)
  {
  }

  /** The characters `str.isspace` accepts (Unicode White_Space and the four ASCII separators). */
  predicate IsSpace(c: char) {
    || c == ' ' || '\t' <= c <= '\r' || '\U{001C}' <= c <= '\U{001F}'
    || c == '\U{0085}' || c == '\U{00A0}' || c == '\U{1680}' || '\U{2000}' <= c <= '\U{200A}'
    || c == '\U{2028}' || c == '\U{2029}' || c == '\U{202F}' || c == '\U{205F}' || c == '\U{3000}'
  }

  /** The characters `str.splitlines` breaks at. */
  predicate IsLineBreak(c: char) {
    || '\n' <= c <= '\r' || '\U{001C}' <= c <= '\U{001E}'
    || c == '\U{0085}' || c == '\U{2028}' || c == '\U{2029}'
  }

  /** The list markers a reply line may start with: dashes, bullets, digits, dots and spaces. */
  predicate IsMarker(c: char) {
    c == '-' || c == '\U{2022}' || '0' <= c <= '9' || c == '.' || c == ' '
  }

  /** The character classes the strip and split helpers are given. */
  datatype CharClass = Space | LineBreak | Marker | Just(c: char)

  predicate In(c: char, k: CharClass) {
    match k
    case Space => IsSpace(c)
    case LineBreak => IsLineBreak(c)
    case Marker => IsMarker(c)
    case Just(x) => c == x
  }

  /** `s.lstrip(chars)`: drop the longest prefix whose characters all satisfy `drop`. */
  function StripLeft(s: string, drop: CharClass): (r: string)
    ensures |r| <= |s| && r == s[|s| - |r|..]
    ensures forall i :: 0 <= i < |s| - |r| ==> In(s[i], drop)
    ensures |r| > 0 ==> !In(r[0], drop)
    decreases |s|
  {
    if |s| > 0 && In(s[0], drop) then StripLeft(s[1..], drop) else s
  }

  /** A prefix made only of stripped characters goes, whatever follows it. */
  lemma {:induction false} StripLeftPrefix(p: string, rest: string, drop: CharClass)
    requires forall i :: 0 <= i < |p| ==> In(p[i], drop)
    ensures StripLeft(p + rest, drop) == StripLeft(rest, drop)
  {
    if |p| > 0 {
      var s := p + rest;
      assert s[0] == p[0] && s[1..] == p[1..] + rest;
      assert In(s[0], drop);
      assert StripLeft(s, drop) == StripLeft(s[1..], drop);
      StripLeftPrefix(p[1..], rest, drop);
    } else {
      assert p + rest == rest;
    }
  }

  /** `s.rstrip(chars)`: drop the longest suffix whose characters all satisfy `drop`. */
  function StripRight(s: string, drop: CharClass): (r: string)
    ensures |r| <= |s| && r == s[..|r|]
    ensures forall i :: |r| <= i < |s| ==> In(s[i], drop)
    ensures |r| > 0 ==> !In(r[|r| - 1], drop)
    decreases |s|
  {
    if |s| > 0 && In(s[|s| - 1], drop) then StripRight(s[..|s| - 1], drop) else s
  }

  /** The `n` characters of `s` from index `k`. */
  function Window(s: string, k: int, n: int): string
    requires 0 <= k && 0 <= n && k + n <= |s|
  {
    s[k..k + n]
  }

  /**
   * `s.strip()`: no longer than `s`, neither starting nor ending with white
   * space, and empty exactly when `s` is all white space.
   */
  function Strip(s: string): (r: string)
    ensures |r| <= |s|
    ensures |r| > 0 ==> !IsSpace(r[0]) && !IsSpace(r[|r| - 1])
    ensures r == "" <==> forall i :: 0 <= i < |s| ==> IsSpace(s[i])
  {
    StripEmpty(s, StripLeft(s, Space), StripRight(StripLeft(s, Space), Space));
    StripRight(StripLeft(s, Space), Space)
  }

  /**
   * Stripping both ends leaves a window of `s` that starts where the
   * stripped prefix ends.  `Strip` is by definition this for white space, so
   * with `k := Space` this is the window property of `s.strip()`; StripLeft's
   * contract says the prefix holds only stripped characters and
   * StripBothTail says the same of what follows the window.
   */
  lemma StripBothWindow(s: string, k: CharClass)
    ensures var left := StripLeft(s, k); var r := StripRight(left, k); var a := |s| - |left|;
            && a + |r| <= |s| && r == s[a..][..|r|]
  {
    var left := StripLeft(s, k);
    var a := |s| - |left|;
    var r := StripRight(left, k);
    WindowFacts(s, left, r, a, k);
  }

  /** After the window that stripping both ends leaves, `s` holds only stripped characters. */
  lemma StripBothTail(s: string, k: CharClass)
    ensures var left := StripLeft(s, k); var r := StripRight(left, k); var a := |s| - |left|;
            forall i :: a + |r| <= i < |s| ==> In(s[i], k)
  {
    var left := StripLeft(s, k);
    var a := |s| - |left|;
    var r := StripRight(left, k);
    WindowFacts(s, left, r, a, k);
  }

  /** The window facts for given left-stripped and both-stripped texts. */
  lemma WindowFacts(s: string, left: string, r: string, a: nat, k: CharClass)
    requires a <= |s| && left == s[a..] && |r| <= |left| && r == left[..|r|]
    requires forall i :: |r| <= i < |left| ==> In(left[i], k)
    ensures a + |r| <= |s| && r == s[a..a + |r|]
    ensures forall i :: a + |r| <= i < |s| ==> In(s[i], k)
  {
    WindowOfSuffix(s, left, r, a);
    StrippedAfterSuffix(s, left, |r|, a, k);
  }

  lemma WindowOfSuffix(s: string, left: string, r: string, a: nat)
    requires a <= |s| && left == s[a..] && |r| <= |left| && r == left[..|r|]
    ensures a + |r| <= |s| && r == s[a..a + |r|]
  {
  }

  lemma StrippedAfterSuffix(s: string, left: string, n: nat, a: nat, k: CharClass)
    requires a <= |s| && left == s[a..] && n <= |left|
    requires forall i :: n <= i < |left| ==> In(left[i], k)
    ensures a + n <= |s|
    ensures forall i :: a + n <= i < |s| ==> In(s[i], k)
  {
    forall i | a + n <= i < |s|
      ensures In(s[i], k)
    {
      assert s[i] == left[i - a];
    }
  }

  lemma StripEmpty(s: string, left: string, r: string)
    requires left == StripLeft(s, Space) && r == StripRight(left, Space)
    ensures r == "" <==> forall i :: 0 <= i < |s| ==> IsSpace(s[i])
  {
    if r == "" {
      assert left == "";
    } else {
      assert !IsSpace(s[|s| - |left|]);
    }
  }

  /** Text with nothing to strip at either end is its own strip. */
  lemma StripTrimmed(s: string)
    requires |s| > 0 ==> !IsSpace(s[0]) && !IsSpace(s[|s| - 1])
    ensures Strip(s) == s
  {
  }

  /** The separator characters of `s`, in order. */
  function Seps(s: string, seps: CharClass): (r: seq<char>)
    ensures forall i :: 0 <= i < |r| ==> In(r[i], seps)
  {
    if |s| == 0 then [] else (if In(s[0], seps) then [s[0]] else []) + Seps(s[1..], seps)
  }

  /** The pieces with the separators put back between them. */
  function Rebuild(pieces: seq<string>, seps: seq<char>): string
    requires |pieces| == |seps| + 1
  {
    if |seps| == 0 then pieces[0] else pieces[0] + [seps[0]] + Rebuild(pieces[1..], seps[1..])
  }

  /**
   * `s.split(sep)` generalised to a set of separator characters: one more
   * piece than there are separators, none holding a separator, and the pieces
   * with the separators put back between them are `s` again.
   */
  function SplitWhere(s: string, seps: CharClass): (r: seq<string>)
    ensures |r| == |Seps(s, seps)| + 1
    ensures forall i, j :: 0 <= i < |r| && 0 <= j < |r[i]| ==> !In(r[i][j], seps)
    ensures Rebuild(r, Seps(s, seps)) == s
    decreases |s|
  {
    if |s| == 0 then [""]
    else
      var rest := SplitWhere(s[1..], seps);
      RebuildStep(s, seps, rest);
      if In(s[0], seps) then [""] + rest
      else [[s[0]] + rest[0]] + rest[1..]
  }

  /** The step of SplitWhere's round trip: one more character in front. */
  lemma RebuildStep(s: string, seps: CharClass, rest: seq<string>)
    requires |s| > 0 && |rest| == |Seps(s[1..], seps)| + 1 && Rebuild(rest, Seps(s[1..], seps)) == s[1..]
    ensures In(s[0], seps) ==> Rebuild([""] + rest, Seps(s, seps)) == s
    ensures !In(s[0], seps) ==> Rebuild([[s[0]] + rest[0]] + rest[1..], Seps(s, seps)) == s
  {
    var tail := Seps(s[1..], seps);
    if In(s[0], seps) {
      assert Seps(s, seps) == [s[0]] + tail;
      RebuildAfterSep(s, rest, tail);
    } else {
      assert Seps(s, seps) == tail;
      RebuildAfterChar(s, rest, tail);
    }
  }

  /** A leading separator opens an empty piece. */
  lemma RebuildAfterSep(s: string, rest: seq<string>, tail: seq<char>)
    requires |s| > 0 && |rest| == |tail| + 1 && Rebuild(rest, tail) == s[1..]
    ensures Rebuild([""] + rest, [s[0]] + tail) == s
  {
    RebuildCons("", rest, s[0], tail);
    assert s == [s[0]] + s[1..];
  }

  /** A leading non-separator joins the first piece. */
  lemma RebuildAfterChar(s: string, rest: seq<string>, tail: seq<char>)
    requires |s| > 0 && |rest| == |tail| + 1 && Rebuild(rest, tail) == s[1..]
    ensures Rebuild([[s[0]] + rest[0]] + rest[1..], tail) == s
  {
    RebuildFront(s[0], rest, tail);
    assert s == [s[0]] + s[1..];
  }

  lemma RebuildCons(p: string, rest: seq<string>, c: char, tail: seq<char>)
    requires |rest| == |tail| + 1
    ensures Rebuild([p] + rest, [c] + tail) == p + [c] + Rebuild(rest, tail)
  {
    assert ([p] + rest)[1..] == rest && ([c] + tail)[1..] == tail;
  }

  lemma RebuildFront(c: char, rest: seq<string>, tail: seq<char>)
    requires |rest| == |tail| + 1
    ensures Rebuild([[c] + rest[0]] + rest[1..], tail) == [c] + Rebuild(rest, tail)
  {
    var r := [[c] + rest[0]] + rest[1..];
    if |tail| > 0 {
      assert r[1..] == rest[1..];
    }
  }

  /** `s.split(sep)`. */
  function Split(s: string, sep: char): (r: seq<string>)
    ensures |r| >= 1
    ensures forall i, j :: 0 <= i < |r| && 0 <= j < |r[i]| ==> r[i][j] != sep
  {
    SplitWhere(s, Just(sep))
  }

  /** `sep.join(parts)`. */
  function Join(parts: seq<string>, sep: char): string
  {
    if |parts| == 0 then ""
    else if |parts| == 1 then parts[0]
    else parts[0] + [sep] + Join(parts[1..], sep)
  }

  /** Splitting at a character and joining back with it gives the text back. */
  lemma {:induction false} JoinSplit(s: string, sep: char)
    ensures Join(Split(s, sep), sep) == s
  {
    if |s| > 0 {
      JoinSplit(s[1..], sep);
      var rest := Split(s[1..], sep);
      assert Split(s, sep) == SplitWhere(s, Just(sep));
      if s[0] != sep {
        assert Split(s, sep) == [[s[0]] + rest[0]] + rest[1..];
        if |rest| > 1 {
          assert rest == [rest[0]] + rest[1..];
          assert Join(rest, sep) == rest[0] + [sep] + Join(rest[1..], sep);
          assert ([[s[0]] + rest[0]] + rest[1..])[1..] == rest[1..];
        }
        assert s == [s[0]] + s[1..];
      } else {
        assert Split(s, sep) == [""] + rest;
        assert ([""] + rest)[1..] == rest;
        assert s == [sep] + s[1..];
      }
    }
  }

  /**
   * `s.splitlines()` up to empty lines: a break at every line-break
   * character, so a "\r\n" pair or a final break adds one empty line.  The
   * lines hold no break and, with the breaks put back, are `s` again.
   */
  function SplitLines(s: string): (r: seq<string>)
    ensures |r| == |Seps(s, LineBreak)| + 1
    ensures forall i, j :: 0 <= i < |r| && 0 <= j < |r[i]| ==> !IsLineBreak(r[i][j])
    ensures Rebuild(r, Seps(s, LineBreak)) == s
  {
    SplitWhere(s, LineBreak)
  }

  /** Whether `pat` occurs in `s` starting at some index. */
  ghost predicate Occurs(s: string, pat: string) {
    exists k :: 0 <= k <= |s| - |pat| && Window(s, k, |pat|) == pat
  }

  /** `s.replace(pat, rep)`: replace occurrences left to right, never overlapping. */
  function Replace(s: string, pat: string, rep: string): string
    requires |pat| > 0
    decreases |s|
  {
    if |s| < |pat| then s
    else if s[..|pat|] == pat then rep + Replace(s[|pat|..], pat, rep)
    else [s[0]] + Replace(s[1..], pat, rep)
  }

  /** Text that does not contain the pattern is left as it is. */
  lemma {:induction false} ReplaceAbsent(s: string, pat: string, rep: string)
    requires |pat| > 0
    requires !Occurs(s, pat)
    ensures Replace(s, pat, rep) == s
  {
    if |s| >= |pat| {
      assert Window(s, 0, |pat|) == s[..|pat|];
      assert !Occurs(s[1..], pat) by {
        forall k | 0 <= k <= |s[1..]| - |pat|
          ensures Window(s[1..], k, |pat|) != pat
        {
          assert Window(s[1..], k, |pat|) == Window(s, k + 1, |pat|);
        }
      }
      ReplaceAbsent(s[1..], pat, rep);
      assert s == [s[0]] + s[1..];
    }
  }

  /** Every occurrence replaced: the pattern followed by text without it. */
  lemma ReplaceLeading(pat: string, rest: string, rep: string)
    requires |pat| > 0
    ensures Replace(pat + rest, pat, rep) == rep + Replace(rest, pat, rep)
  {
    assert (pat + rest)[..|pat|] == pat;
    assert (pat + rest)[|pat|..] == rest;
  }

  /** The slice `xs[:n]`: the first `n` items, or all but the last `-n` when `n` is negative. */
  function SliceTo<T>(xs: seq<T>, n: int): (r: seq<T>)
    ensures |r| == if n >= 0 then Min(n, |xs|) else Max(0, |xs| + n)
    ensures r == xs[..|r|]
  {
    if n >= 0 then xs[..Min(n, |xs|)] else xs[..Max(0, |xs| + n)]
  }
}
