/**
 * Query generation: the choice between Gemini, OpenAI and the offline
 * template generator, the template generator itself, the clean-up of a
 * language model's reply, the saved AI configuration and the request clamp.
 * The model calls themselves are outside the model: a reply is a parameter.
 */
module QueryGeneration {
  import opened Wrappers
  import opened PyStrings

  /** A query template `before{}after`; `format(phrase)` puts the phrase in the gap. */
  datatype Template = Template(before: string, after: string)

  function Fill(t: Template, phrase: string): string {
    t.before + phrase + t.after
  }

  /** The thirty templates of the offline generator, in their fixed order. */
  const Templates: seq<Template> := [
    Template("what is ", ""), Template("how to ", ""), Template("best ", " tips"),
    Template("latest ", " news"), Template("", " 2025"), Template("is ", " worth it"),
    Template("", " near me"), Template("", " vs alternatives"), Template("beginner guide to ", ""),
    Template("advanced ", " techniques"), Template("cheap ", " ideas"), Template("top ", " mistakes"),
    Template("can you ", ""), Template("why is ", " important"), Template("where to learn ", ""),
    Template("fast way to ", ""), Template("", " for beginners"), Template("", " for experts"),
    Template("common ", " questions"), Template("", " step by step"), Template("simple ", " tricks"),
    Template("pro ", " settings"), Template("daily ", " routine"), Template("safe way to ", ""),
    Template("local ", " updates"), Template("", " examples"), Template("explain ", " like I'm five"),
    Template("best free ", " tools"), Template("", " troubleshooting"), Template("", " tutorial")
  ]

  /** The seed the offline generator works from: an empty prompt becomes "interesting topics". */
  function SeedText(seed: string): string {
    Strip(if seed == "" then "interesting topics" else seed)
  }

  /** The stripped, non-blank pieces of a list, in order. */
  function NonBlank(pieces: seq<string>): (r: seq<string>)
    ensures |r| <= |pieces|
    ensures forall i :: 0 <= i < |r| ==> r[i] != "" && !IsSpace(r[i][0]) && !IsSpace(r[i][|r[i]| - 1])
  {
    if |pieces| == 0 then []
    else
      var p := Strip(pieces[0]);
      (if p != "" then [p] else []) + NonBlank(pieces[1..])
  }

  /** One piece is kept, stripped, exactly when it is not blank. */
  lemma NonBlankOne(p: string)
    ensures NonBlank([p]) == if Strip(p) == "" then [] else [Strip(p)]
  {
    assert [p][1..] == [];
  }

  /**
   * The filter works piece by piece: the pieces of a concatenation are the
   * pieces of each part, in order.  With NonBlankOne this determines NonBlank.
   */
  lemma {:induction false} NonBlankAppend(a: seq<string>, b: seq<string>)
    ensures NonBlank(a + b) == NonBlank(a) + NonBlank(b)
  {
    if |a| > 0 {
      NonBlankAppend(a[1..], b);
      var p := Strip(a[0]);
      var head := if p != "" then [p] else [];
      TailOfAppend(a, b);
      assert NonBlank(a + b) == head + NonBlank(a[1..] + b);
      assert NonBlank(a) == head + NonBlank(a[1..]);
      assert head + (NonBlank(a[1..]) + NonBlank(b)) == (head + NonBlank(a[1..])) + NonBlank(b);
    } else {
      assert a + b == b;
    }
  }

  /**
   * The topic parts: the seed split at commas and at " and ", each part
   * stripped, blank parts dropped; the whole seed when no part is left.
   */
  function Parts(seed: string): (ps: seq<string>)
    ensures |ps| >= 1
    ensures ps == [SeedText(seed)] || forall i :: 0 <= i < |ps| ==> ps[i] != ""
  {
    var s := SeedText(seed);
    var kept := NonBlank(Split(Replace(s, " and ", ","), ','));
    if |kept| == 0 then [s] else kept
  }

  /** A seed with neither a comma nor " and " in it is a single part. */
  lemma SingleTopic(seed: string)
    requires SeedText(seed) != ""
    requires forall i :: 0 <= i < |SeedText(seed)| ==> SeedText(seed)[i] != ','
    requires !Occurs(SeedText(seed), " and ")
    ensures Parts(seed) == [SeedText(seed)]
  {
    var s := SeedText(seed);
    ReplaceAbsent(s, " and ", ",");
    SplitNoSeparator(s, ',');
    assert Split(s, ',') == [s];
    assert NonBlank([s]) == [Strip(s)] + NonBlank([]);
    StripTrimmed(s);
  }

  lemma TailOfAppend<T>(a: seq<T>, b: seq<T>)
    requires |a| > 0
    ensures (a + b)[0] == a[0] && (a + b)[1..] == a[1..] + b
  {
  }

  /**
   * Without " and " in the seed, the parts are the stripped, non-blank
   * comma-separated pieces of the seed (the whole seed when there are none).
   */
  lemma PartsAtCommas(seed: string)
    requires !Occurs(SeedText(seed), " and ")
    ensures var kept := NonBlank(Split(SeedText(seed), ','));
            Parts(seed) == if kept == [] then [SeedText(seed)] else kept
  {
    ReplaceAbsent(SeedText(seed), " and ", ",");
  }

  /** Two one-word topics joined by " and " are two parts, as if joined by a comma. */
  lemma PartsAtAnd(x: string, y: string)
    requires x != "" && y != ""
    requires forall i :: 0 <= i < |x| ==> !IsSpace(x[i]) && x[i] != ','
    requires forall i :: 0 <= i < |y| ==> !IsSpace(y[i]) && y[i] != ','
    ensures Parts(x + " and " + y) == [x, y]
  {
    var seed := x + " and " + y;
    assert seed[0] == x[0] && seed[|seed| - 1] == y[|y| - 1];
    StripTrimmed(seed);
    assert SeedText(seed) == seed;
    ReplaceAndOfWords(x, y);
    CommaPairParts(x, y);
  }

  lemma ReplaceAndOfWords(x: string, y: string)
    requires forall i :: 0 <= i < |x| ==> !IsSpace(x[i])
    requires forall i :: 0 <= i < |y| ==> !IsSpace(y[i])
    ensures Replace(x + " and " + y, " and ", ",") == x + [','] + y
  {
    Assoc(x, " and ", y);
    ReplaceSkipsWord(x, " and " + y, " and ", ",");
    AndThenWord(y);
    Assoc(x, ",", y);
  }

  lemma Assoc<T>(a: seq<T>, b: seq<T>, c: seq<T>)
    ensures a + b + c == a + (b + c)
  {
  }

  lemma AndThenWord(y: string)
    requires forall i :: 0 <= i < |y| ==> !IsSpace(y[i])
    ensures Replace(" and " + y, " and ", ",") == "," + y
  {
    ReplaceLeading(" and ", y, ",");
    ReplaceSkipsWord(y, "", " and ", ",");
    assert y + "" == y;
    assert Replace("", " and ", ",") == "";
  }

  lemma CommaPairParts(x: string, y: string)
    requires x != "" && y != ""
    requires forall i :: 0 <= i < |x| ==> !IsSpace(x[i]) && x[i] != ','
    requires forall i :: 0 <= i < |y| ==> !IsSpace(y[i]) && y[i] != ','
    ensures NonBlank(Split(x + [','] + y, ',')) == [x, y]
  {
    SplitAt(x, y, ',');
    SplitNoSeparator(y, ',');
    StripTrimmed(x);
    StripTrimmed(y);
    NonBlankOne(x);
    NonBlankOne(y);
    NonBlankAppend([x], [y]);
    PairAppend(x, y);
  }

  lemma PairAppend<T>(a: T, b: T)
    ensures [a] + [b] == [a, b]
  {
  }

  /** A word without the pattern's first character is copied through by the replacement. */
  lemma {:induction false} ReplaceSkipsWord(x: string, rest: string, pat: string, rep: string)
    requires |pat| > 0
    requires forall i :: 0 <= i < |x| ==> x[i] != pat[0]
    ensures Replace(x + rest, pat, rep) == x + Replace(rest, pat, rep)
    decreases |x|
  {
    if |x| > 0 {
      var s := x + rest;
      TailOfAppend(x, rest);
      ReplaceSkipsWord(x[1..], rest, pat, rep);
      if |s| >= |pat| {
        assert s[..|pat|][0] == x[0];
      }
      assert x == [x[0]] + x[1..];
    } else {
      assert x + rest == rest;
    }
  }

  /** A separator after a piece without one splits off that piece. */
  lemma {:induction false} SplitAt(x: string, y: string, sep: char)
    requires forall i :: 0 <= i < |x| ==> x[i] != sep
    ensures Split(x + [sep] + y, sep) == [x] + Split(y, sep)
    decreases |x|
  {
    if |x| == 0 {
      assert x + [sep] + y == [sep] + y;
      SplitWhereCons(sep, y, Just(sep));
    } else {
      var t := x[1..] + [sep] + y;
      assert x + [sep] + y == [x[0]] + t;
      SplitWhereCons(x[0], t, Just(sep));
      SplitAt(x[1..], y, sep);
      JoinFirstPiece(x, Split(y, sep));
    }
  }

  /** One character in front: a separator opens an empty piece, any other joins the first piece. */
  lemma SplitWhereCons(c: char, t: string, k: CharClass)
    ensures var rest := SplitWhere(t, k);
            SplitWhere([c] + t, k) == if In(c, k) then [""] + rest else [[c] + rest[0]] + rest[1..]
  {
    TailOfAppend([c], t);
  }

  lemma JoinFirstPiece(x: string, pieces: seq<string>)
    requires |x| > 0
    ensures var rest := [x[1..]] + pieces; [[x[0]] + rest[0]] + rest[1..] == [x] + pieces
  {
    assert [x[0]] + x[1..] == x;
    TailOfAppend([x[1..]], pieces);
  }

  lemma {:induction false} SplitNoSeparator(s: string, sep: char)
    requires forall i :: 0 <= i < |s| ==> s[i] != sep
    ensures Split(s, sep) == [s]
  {
    if |s| > 0 {
      SplitNoSeparator(s[1..], sep);
      assert Split(s, sep) == SplitWhere(s, Just(sep));
      assert Split(s[1..], sep) == SplitWhere(s[1..], Just(sep));
      assert s == [s[0]] + s[1..];
    }
  }

  /** The `j`-th generated query: template `j mod |table|` filled with part `j mod |ps|`. */
  function Filled(table: seq<Template>, j: nat, ps: seq<string>): string
    requires |table| > 0 && |ps| > 0
  {
    Fill(table[j % |table|], ps[j % |ps|])
  }

  /** The generator's raw list before dedup: the first `n` filled templates. */
  function Generated(table: seq<Template>, ps: seq<string>, n: nat): (c: seq<string>)
    requires |table| > 0 && |ps| > 0
    ensures |c| == n
    ensures forall j :: 0 <= j < n ==> c[j] == Filled(table, j, ps)
  {
    if n == 0 then [] else Generated(table, ps, n - 1) + [Filled(table, n - 1, ps)]
  }

  /** The lower-cased forms of a list's items. */
  function Lowers(ys: seq<string>): set<string> {
    if |ys| == 0 then {} else Lowers(ys[..|ys| - 1]) + {Lower(ys[|ys| - 1])}
  }

  lemma {:induction false} LowersHasAll(ys: seq<string>)
    ensures forall i :: 0 <= i < |ys| ==> Lower(ys[i]) in Lowers(ys)
  {
    if |ys| > 0 {
      LowersHasAll(ys[..|ys| - 1]);
      assert forall i :: 0 <= i < |ys| - 1 ==> ys[..|ys| - 1][i] == ys[i];
    }
  }

  lemma LowersSnoc(ys: seq<string>, x: string)
    ensures Lowers(ys + [x]) == Lowers(ys) + {Lower(x)}
  {
    assert (ys + [x])[..|ys|] == ys;
  }

  /**
   * Case-insensitive dedup keeping first occurrences in order; with
   * `dropEmpty`, empty items are dropped too (`if lk and lk not in seen`).
   */
  function FirstOccurrences(xs: seq<string>, dropEmpty: bool): (r: seq<string>)
    ensures |r| <= |xs|
    ensures !dropEmpty && |xs| > 0 ==> |r| >= 1 && r[0] == xs[0]
    decreases |xs|
  {
    if |xs| == 0 then []
    else
      var prev := FirstOccurrences(xs[..|xs| - 1], dropEmpty);
      var x := xs[|xs| - 1];
      if (dropEmpty && Lower(x) == "") || Lower(x) in Lowers(prev) then prev
      else prev + [x]
  }

  /** No two kept items agree ignoring case. */
  ghost predicate DistinctCaseless(r: seq<string>) {
    forall i, j :: 0 <= i < j < |r| ==> Lower(r[i]) != Lower(r[j])
  }

  /**
   * What the dedup keeps: items of the input only, none empty when empties
   * are dropped, and no two equal ignoring case.
   */
  lemma {:induction false} FirstOccurrencesSound(xs: seq<string>, dropEmpty: bool)
    ensures var r := FirstOccurrences(xs, dropEmpty);
            && (forall i :: 0 <= i < |r| ==> r[i] in xs && (dropEmpty ==> r[i] != ""))
            && DistinctCaseless(r)
    decreases |xs|
  {
    if |xs| > 0 {
      var init := xs[..|xs| - 1];
      FirstOccurrencesSound(init, dropEmpty);
      var prev := FirstOccurrences(init, dropEmpty);
      var x := xs[|xs| - 1];
      var r := FirstOccurrences(xs, dropEmpty);
      assert forall y :: y in init ==> y in xs;
      if r != prev {
        assert r == prev + [x];
        LowersHasAll(prev);
        assert Lower(x) != "" || !dropEmpty;
      }
    }
  }

  /** Nothing is lost: every item's lower-cased form is kept (bar empties, when dropped). */
  lemma {:induction false} FirstOccurrencesCover(xs: seq<string>, dropEmpty: bool)
    ensures forall k :: 0 <= k < |xs| ==>
              (dropEmpty && xs[k] == "") || Lower(xs[k]) in Lowers(FirstOccurrences(xs, dropEmpty))
  {
    if |xs| > 0 {
      var init := xs[..|xs| - 1];
      FirstOccurrencesCover(init, dropEmpty);
      var prev := FirstOccurrences(init, dropEmpty);
      var r := FirstOccurrences(xs, dropEmpty);
      if r != prev {
        LowersSnoc(prev, xs[|xs| - 1]);
      }
      forall k | 0 <= k < |xs|
        ensures (dropEmpty && xs[k] == "") || Lower(xs[k]) in Lowers(r)
      {
        if k < |xs| - 1 {
          assert xs[k] == init[k];
        } else if !(dropEmpty && xs[k] == "") && Lower(xs[k]) !in Lowers(prev) {
          assert r == prev + [xs[k]];
        }
      }
    }
  }

  /** Item `k` is the first of its case-insensitive class (and not empty, when empties are dropped). */
  ghost predicate IsFirst(xs: seq<string>, k: nat, dropEmpty: bool)
    requires k < |xs|
  {
    && !(dropEmpty && xs[k] == "")
    && forall j :: 0 <= j < k ==> Lower(xs[j]) != Lower(xs[k])
  }

  /**
   * A reference definition of what the dedup keeps: the positions below `n`
   * holding the first item of their class, in increasing order, all of them.
   */
  ghost function FirstIndices(xs: seq<string>, dropEmpty: bool, n: nat): (idx: seq<nat>)
    requires n <= |xs|
    ensures forall i :: 0 <= i < |idx| ==> idx[i] < n
  {
    if n == 0 then []
    else FirstIndices(xs, dropEmpty, n - 1) + (if IsFirst(xs, n - 1, dropEmpty) then [n - 1] else [])
  }

  /** FirstIndices one position further: the position is added exactly when it holds a first item. */
  lemma FirstIndicesStep(xs: seq<string>, dropEmpty: bool, n: nat)
    requires 0 < n <= |xs|
    ensures IsFirst(xs, n - 1, dropEmpty) ==>
              FirstIndices(xs, dropEmpty, n) == FirstIndices(xs, dropEmpty, n - 1) + [n - 1]
    ensures !IsFirst(xs, n - 1, dropEmpty) ==> FirstIndices(xs, dropEmpty, n) == FirstIndices(xs, dropEmpty, n - 1)
  {
    assert FirstIndices(xs, dropEmpty, n - 1) + [] == FirstIndices(xs, dropEmpty, n - 1);
  }

  /**
   * The reference positions are increasing, each holds the first item of its
   * class, and every such position below `n` is among them.
   */
  lemma FirstIndicesSpec(xs: seq<string>, dropEmpty: bool, n: nat)
    requires n <= |xs|
    ensures var idx := FirstIndices(xs, dropEmpty, n);
            && (forall i :: 0 <= i < |idx| ==> IsFirst(xs, idx[i], dropEmpty))
            && (forall i, j :: 0 <= i < j < |idx| ==> idx[i] < idx[j])
            && (forall k :: 0 <= k < n && IsFirst(xs, k, dropEmpty) ==> k in idx)
  {
    FirstIndicesAreFirst(xs, dropEmpty, n);
    FirstIndicesIncrease(xs, dropEmpty, n);
    FirstIndicesComplete(xs, dropEmpty, n);
  }

  lemma {:induction false} FirstIndicesAreFirst(xs: seq<string>, dropEmpty: bool, n: nat)
    requires n <= |xs|
    ensures var idx := FirstIndices(xs, dropEmpty, n);
            forall i :: 0 <= i < |idx| ==> IsFirst(xs, idx[i], dropEmpty)
  {
    if n > 0 {
      FirstIndicesAreFirst(xs, dropEmpty, n - 1);
      FirstIndicesStep(xs, dropEmpty, n);
      var prev := FirstIndices(xs, dropEmpty, n - 1);
      var idx := FirstIndices(xs, dropEmpty, n);
      if IsFirst(xs, n - 1, dropEmpty) {
        forall i | 0 <= i < |idx|
          ensures IsFirst(xs, idx[i], dropEmpty)
        {
          if i < |prev| {
            assert idx[i] == prev[i];
          }
        }
      }
    }
  }

  lemma {:induction false} FirstIndicesIncrease(xs: seq<string>, dropEmpty: bool, n: nat)
    requires n <= |xs|
    ensures var idx := FirstIndices(xs, dropEmpty, n);
            forall i, j :: 0 <= i < j < |idx| ==> idx[i] < idx[j]
  {
    if n > 0 {
      FirstIndicesIncrease(xs, dropEmpty, n - 1);
      FirstIndicesStep(xs, dropEmpty, n);
      var prev := FirstIndices(xs, dropEmpty, n - 1);
      var idx := FirstIndices(xs, dropEmpty, n);
      if IsFirst(xs, n - 1, dropEmpty) {
        forall i, j | 0 <= i < j < |idx|
          ensures idx[i] < idx[j]
        {
          assert idx[i] == prev[i];
          if j < |prev| {
            assert idx[j] == prev[j];
          }
        }
      }
    }
  }

  lemma {:induction false} FirstIndicesComplete(xs: seq<string>, dropEmpty: bool, n: nat)
    requires n <= |xs|
    ensures var idx := FirstIndices(xs, dropEmpty, n);
            forall k :: 0 <= k < n && IsFirst(xs, k, dropEmpty) ==> k in idx
  {
    if n > 0 {
      FirstIndicesComplete(xs, dropEmpty, n - 1);
      FirstIndicesStep(xs, dropEmpty, n);
      var prev := FirstIndices(xs, dropEmpty, n - 1);
      var idx := FirstIndices(xs, dropEmpty, n);
      forall k | 0 <= k < n && IsFirst(xs, k, dropEmpty)
        ensures k in idx
      {
        if k < n - 1 {
          assert k in prev;
        }
      }
    }
  }

  /** The items at the given positions, in order. */
  ghost function Pick(xs: seq<string>, idx: seq<nat>): (r: seq<string>)
    requires forall i :: 0 <= i < |idx| ==> idx[i] < |xs|
    ensures |r| == |idx|
  {
    if |idx| == 0 then [] else Pick(xs, idx[..|idx| - 1]) + [xs[idx[|idx| - 1]]]
  }

  lemma PickSnoc(xs: seq<string>, idx: seq<nat>, k: nat)
    requires forall i :: 0 <= i < |idx| ==> idx[i] < |xs|
    requires k < |xs|
    ensures Pick(xs, idx + [k]) == Pick(xs, idx) + [xs[k]]
  {
    assert (idx + [k])[..|idx|] == idx;
  }

  /** A lower-cased form in the set comes from some item of the list. */
  lemma {:induction false} LowersFrom(ys: seq<string>, y: string)
    requires y in Lowers(ys)
    ensures exists i :: 0 <= i < |ys| && Lower(ys[i]) == y
  {
    if Lower(ys[|ys| - 1]) != y {
      LowersFrom(ys[..|ys| - 1], y);
      var i :| 0 <= i < |ys| - 1 && Lower(ys[..|ys| - 1][i]) == y;
      assert ys[..|ys| - 1][i] == ys[i];
    }
  }

  /** The dedup skips an item exactly when it is not the first of its class. */
  lemma SkipsExactlyLater(xs: seq<string>, n: nat, dropEmpty: bool)
    requires 0 < n <= |xs|
    ensures var prev := FirstOccurrences(xs[..n - 1], dropEmpty);
            var x := xs[n - 1];
            ((dropEmpty && Lower(x) == "") || Lower(x) in Lowers(prev)) <==> !IsFirst(xs, n - 1, dropEmpty)
  {
    var init := xs[..n - 1];
    var prev := FirstOccurrences(init, dropEmpty);
    var x := xs[n - 1];
    assert Lower(x) == "" <==> x == "";
    if Lower(x) in Lowers(prev) {
      LowersFrom(prev, Lower(x));
      var i :| 0 <= i < |prev| && Lower(prev[i]) == Lower(x);
      FirstOccurrencesSound(init, dropEmpty);
      var j :| 0 <= j < |init| && init[j] == prev[i];
      assert Lower(xs[j]) == Lower(xs[n - 1]);
    }
    if !IsFirst(xs, n - 1, dropEmpty) && !(dropEmpty && x == "") {
      var j :| 0 <= j < n - 1 && Lower(xs[j]) == Lower(x);
      FirstOccurrencesCover(init, dropEmpty);
      assert init[j] == xs[j];
    }
  }

  /** The dedup keeps the `n`-th item exactly when it is the first of its class. */
  lemma KeepOrSkip(xs: seq<string>, n: nat, dropEmpty: bool)
    requires 0 < n <= |xs|
    ensures IsFirst(xs, n - 1, dropEmpty) ==>
              FirstOccurrences(xs[..n], dropEmpty) == FirstOccurrences(xs[..n - 1], dropEmpty) + [xs[n - 1]]
    ensures !IsFirst(xs, n - 1, dropEmpty) ==>
              FirstOccurrences(xs[..n], dropEmpty) == FirstOccurrences(xs[..n - 1], dropEmpty)
  {
    SkipsExactlyLater(xs, n, dropEmpty);
    FirstOccurrencesStep(xs, n - 1, dropEmpty, FirstOccurrences(xs[..n - 1], dropEmpty));
    assert xs[..n] == xs[..n - 1 + 1];
  }

  /**
   * The dedup keeps, in input order, exactly the first item of each
   * case-insensitive class (bar empties, when dropped): a later spelling of
   * a kept item never replaces it.
   */
  lemma {:induction false} FirstOccurrencesKeepFirst(xs: seq<string>, n: nat, dropEmpty: bool)
    requires n <= |xs|
    ensures FirstOccurrences(xs[..n], dropEmpty) == Pick(xs, FirstIndices(xs, dropEmpty, n))
  {
    if n > 0 {
      FirstOccurrencesKeepFirst(xs, n - 1, dropEmpty);
      KeepOrSkip(xs, n, dropEmpty);
      FirstIndicesStep(xs, dropEmpty, n);
      if IsFirst(xs, n - 1, dropEmpty) {
        PickSnoc(xs, FirstIndices(xs, dropEmpty, n - 1), n - 1);
      }
    }
  }

  /** One more item of `xs` either extends the first occurrences or is skipped. */
  lemma FirstOccurrencesStep(xs: seq<string>, i: nat, dropEmpty: bool, prev: seq<string>)
    requires i < |xs| && prev == FirstOccurrences(xs[..i], dropEmpty)
    ensures (dropEmpty && Lower(xs[i]) == "") || Lower(xs[i]) in Lowers(prev) ==>
              FirstOccurrences(xs[..i + 1], dropEmpty) == prev
    ensures !((dropEmpty && Lower(xs[i]) == "") || Lower(xs[i]) in Lowers(prev)) ==>
              FirstOccurrences(xs[..i + 1], dropEmpty) == prev + [xs[i]]
  {
    assert xs[..i + 1][..i] == xs[..i] && xs[..i + 1][i] == xs[i];
  }

  /** The dedup loops: keep an item unless its lower-cased form was seen (or it is empty, when dropped). */
  method DedupCaseless(xs: seq<string>, dropEmpty: bool) returns (ys: seq<string>)
    ensures ys == FirstOccurrences(xs, dropEmpty)
  {
    ys := [];
    var seen: set<string> := {};
    var i := 0;
    while i < |xs|
      invariant 0 <= i <= |xs|
      invariant ys == FirstOccurrences(xs[..i], dropEmpty)
      invariant seen == Lowers(ys)
    {
      var lk := Lower(xs[i]);
      ghost var next := FirstOccurrences(xs[..i + 1], dropEmpty);
      FirstOccurrencesStep(xs, i, dropEmpty, ys);
      if (!dropEmpty || lk != "") && lk !in seen {
        LowersSnoc(ys, xs[i]);
        ys := ys + [xs[i]];
        seen := seen + {lk};
      }
      assert ys == next;
      i := i + 1;
      assert ys == FirstOccurrences(xs[..i], dropEmpty);
    }
    assert xs[..i] == xs;
  }

  /** A query one of the templates makes from one of the parts. */
  ghost predicate FromTemplates(q: string, table: seq<Template>, ps: seq<string>) {
    exists t, p :: 0 <= t < |table| && 0 <= p < |ps| && q == Fill(table[t], ps[p])
  }

  /**
   * `_fallback_generate_queries` over a template table: at most `count`
   * queries, none for a count of zero or less, at least one otherwise, the
   * first being the first template filled with the first part.
   */
  function FallbackQueries(table: seq<Template>, ps: seq<string>, count: int): (r: seq<string>)
    requires |table| > 0 && |ps| > 0
    ensures count <= 0 ==> r == []
    ensures count >= 1 ==> 1 <= |r| <= count && r[0] == Fill(table[0], ps[0])
  {
    SliceTo(FirstOccurrences(Generated(table, ps, Max(1, count)), false), count)
  }

  /** The offline queries are pairwise distinct, ignoring case. */
  lemma FallbackDistinct(table: seq<Template>, ps: seq<string>, count: int)
    requires |table| > 0 && |ps| > 0
    ensures DistinctCaseless(FallbackQueries(table, ps, count))
  {
    FirstOccurrencesSound(Generated(table, ps, Max(1, count)), false);
    var d := FirstOccurrences(Generated(table, ps, Max(1, count)), false);
    var r := FallbackQueries(table, ps, count);
    assert forall i :: 0 <= i < |r| ==> r[i] == d[i];
  }

  /** Every offline query is one of the templates filled with one of the topic parts. */
  lemma FallbackFromTemplates(table: seq<Template>, ps: seq<string>, count: int)
    requires |table| > 0 && |ps| > 0
    ensures var r := FallbackQueries(table, ps, count);
            forall i :: 0 <= i < |r| ==> FromTemplates(r[i], table, ps)
  {
    var c := Generated(table, ps, Max(1, count));
    var d := FirstOccurrences(c, false);
    FirstOccurrencesSound(c, false);
    var r := FallbackQueries(table, ps, count);
    forall i | 0 <= i < |r|
      ensures FromTemplates(r[i], table, ps)
    {
      assert r[i] == d[i] && d[i] in c;
      var j :| 0 <= j < |c| && c[j] == d[i];
      assert r[i] == Fill(table[j % |table|], ps[j % |ps|]);
    }
  }

  /** With the offline generator's own table, the first query is "what is <first part>". */
  lemma FirstOfflineQuery(seed: string, count: int)
    requires count >= 1
    ensures FallbackQueries(Templates, Parts(seed), count)[0] == "what is " + Parts(seed)[0]
  {
  }

  /** The offline generator: the seed's parts, then the cycling generation. */
  method FallbackGenerateQueries(table: seq<Template>, seed: string, count: int) returns (r: seq<string>)
    requires |table| > 0
    ensures r == FallbackQueries(table, Parts(seed), count)
  {
    r := CycleTemplates(table, Parts(seed), count);
  }

  /** A cycling loop over parts and templates, then the dedup, then `[:count]`. */
  method CycleTemplates(table: seq<Template>, ps: seq<string>, count: int) returns (r: seq<string>)
    requires |table| > 0 && |ps| > 0
    ensures r == FallbackQueries(table, ps, count)
  {
    var out: seq<string> := [];
    var i := 0;
    while |out| < Max(1, count)
      invariant i == |out| <= Max(1, count)
      invariant out == Generated(table, ps, i)
    {
      var phrase := ps[i % |ps|];
      var t := table[i % |table|];
      out := out + [Fill(t, phrase)];
      i := i + 1;
    }
    var dedup := DedupCaseless(out, false);
    r := SliceTo(dedup, count);
  }

  /** One reply line cleaned: stripped, leading markers dropped, stripped again. */
  function CleanLine(ln: string): (r: string)
    ensures |r| <= |ln|
    ensures |r| > 0 ==> !IsSpace(r[0]) && !IsSpace(r[|r| - 1])
  {
    Strip(StripLeft(Strip(ln), Marker))
  }

  /** A line without a leading marker and without surrounding space comes through as it is. */
  lemma CleanLineKeepsPlain(ln: string)
    requires ln != "" && !IsSpace(ln[0]) && !IsMarker(ln[0]) && !IsSpace(ln[|ln| - 1])
    ensures CleanLine(ln) == ln
  {
    StripTrimmed(ln);
    StripTrimmed(StripLeft(ln, Marker));
  }

  /** A run of list markers before the text is dropped, whatever the markers are. */
  lemma CleanLineDropsMarkers(pre: string, q: string)
    requires forall i :: 0 <= i < |pre| ==> IsMarker(pre[i])
    requires pre != "" ==> !IsSpace(pre[0])
    requires q != "" && !IsSpace(q[0]) && !IsMarker(q[0]) && !IsSpace(q[|q| - 1])
    ensures CleanLine(pre + q) == q
  {
    var ln := pre + q;
    assert ln[0] == (if pre != "" then pre[0] else q[0]) && ln[|ln| - 1] == q[|q| - 1];
    StripTrimmed(ln);
    StripLeftPrefix(pre, q, Marker);
    StripTrimmed(q);
  }

  /**
   * Leading digits belong to the marker set, so a query that itself starts
   * with a number loses it along with the list number.
   */
  lemma CleanLineDropsLeadingNumber()
    ensures CleanLine("1. 2025 budget phones") == "budget phones"
  {
    assert "1. 2025 " + "budget phones" == "1. 2025 budget phones";
    CleanLineDropsMarkers("1. 2025 ", "budget phones");
  }

  /** The cleaned non-blank lines of a reply, in order. */
  function CleanLines(lines: seq<string>): (r: seq<string>)
    ensures |r| <= |lines|
  {
    if |lines| == 0 then []
    else (if Strip(lines[0]) != "" then [CleanLine(lines[0])] else []) + CleanLines(lines[1..])
  }

  /** The reply's lines: the stripped text split into lines, blank ones skipped, each cleaned. */
  function ReplyLines(text: string): seq<string> {
    CleanLines(SplitLines(Strip(text)))
  }

  /** The distinct cleaned lines of a reply. */
  function UniqueLines(text: string): (u: seq<string>)
    ensures forall i :: 0 <= i < |u| ==> u[i] != ""
    ensures DistinctCaseless(u)
  {
    FirstOccurrencesSound(ReplyLines(text), true);
    FirstOccurrences(ReplyLines(text), true)
  }

  /**
   * The post-processing both model clients share, on the reply's distinct
   * lines: the offline queries when there are none; padded with offline
   * queries for the shortfall; cut to `count`. The reply's lines always
   * come first.
   */
  function Settled(table: seq<Template>, uniq: seq<string>, ps: seq<string>, count: int): (r: seq<string>)
    requires |table| > 0 && |ps| > 0
    ensures |uniq| == 0 ==> r == FallbackQueries(table, ps, count)
    ensures 0 < |uniq| < count ==> r == uniq + FallbackQueries(table, ps, count - |uniq|)
    ensures count >= 1 ==> 1 <= |r| <= count
  {
    if |uniq| == 0 then FallbackQueries(table, ps, count)
    else if |uniq| < count then uniq + FallbackQueries(table, ps, count - |uniq|)
    else SliceTo(uniq, count)
  }

  /** The reply's own lines are never displaced: they open the result, up to `count` of them. */
  lemma SettledKeepsReply(table: seq<Template>, uniq: seq<string>, ps: seq<string>, count: nat)
    requires |table| > 0 && |ps| > 0
    ensures uniq[..Min(count, |uniq|)] <= Settled(table, uniq, ps, count)
  {
    if 0 < |uniq| < count {
      assert uniq[..Min(count, |uniq|)] == uniq;
    }
  }

  /** The post-processing of one reply, by the dedup and the pad-or-cut step. */
  method ReplyQueries(table: seq<Template>, text: string, seed: string, count: int) returns (r: seq<string>)
    requires |table| > 0
    ensures r == Settled(table, UniqueLines(text), Parts(seed), count)
  {
    var uniq := DedupCaseless(ReplyLines(text), true);
    assert uniq == UniqueLines(text);
    r := PadOrCut(table, uniq, Parts(seed), count);
  }

  /** The tail of the post-processing, given the distinct lines. */
  method PadOrCut(table: seq<Template>, uniq: seq<string>, ps: seq<string>, count: int) returns (r: seq<string>)
    requires |table| > 0 && |ps| > 0
    ensures r == Settled(table, uniq, ps, count)
  {
    if |uniq| == 0 {
      r := CycleTemplates(table, ps, count);
    } else if |uniq| < count {
      var pad := CycleTemplates(table, ps, count - |uniq|);
      r := uniq + pad;
    } else {
      r := SliceTo(uniq, count);
    }
  }

  /** Which generator ran, as reported back. */
  datatype Provider = Gemini | OpenAI | Offline

  function ProviderName(p: Provider): string {
    match p
    case Gemini => "gemini"
    case OpenAI => "openai"
    case Offline => "fallback"
  }

  /** One vendor's saved settings; `None` is a key absent from the saved object. */
  datatype VendorConfig = VendorConfig(apiKey: Option<string>, model: Option<string>)

  /** The saved AI configuration; `None` is a key absent from the saved object. */
  datatype AiConfig = AiConfig(provider: Option<string>, gemini: Option<VendorConfig>, openai: Option<VendorConfig>)

  const GeminiDefaults := VendorConfig(Some(""), Some("gemini-1.5-flash"))
  const OpenAIDefaults := VendorConfig(Some(""), Some("gpt-4o-mini"))

  /**
   * `_load_ai_config`: missing top-level keys get their defaults (provider
   * "auto", empty keys and the two default models); present ones are kept whole.
   */
  function Loaded(c: AiConfig): (r: AiConfig)
    ensures r.provider.Some? && r.gemini.Some? && r.openai.Some?
    ensures c.provider.Some? ==> r.provider == c.provider
    ensures c.gemini.Some? ==> r.gemini == c.gemini
    ensures c.openai.Some? ==> r.openai == c.openai
    ensures c.provider.None? ==> r.provider == Some("auto")
    ensures c.gemini.None? ==> r.gemini == Some(GeminiDefaults)
    ensures c.openai.None? ==> r.openai == Some(OpenAIDefaults)
  {
    AiConfig(Some(c.provider.GetOr("auto")), Some(c.gemini.GetOr(GeminiDefaults)),
             Some(c.openai.GetOr(OpenAIDefaults)))
  }

  /** Loading a loaded configuration changes nothing. */
  lemma LoadedIdempotent(c: AiConfig)
    ensures Loaded(Loaded(c)) == Loaded(c)
  {
  }

  /** A settings request: provider, vendor, key, model (all optional) and the clear flag. */
  datatype ConfigRequest = ConfigRequest(provider: Option<string>, vendor: Option<string>,
                                         apiKey: Option<string>, model: Option<string>, clear: bool)

  predicate KnownProvider(p: Option<string>) {
    p.Some? && p.value in {"auto", "gemini", "openai"}
  }

  function RequestVendor(q: ConfigRequest): string { Lower(q.vendor.GetOr("")) }
  function RequestKey(q: ConfigRequest): string { Strip(q.apiKey.GetOr("")) }
  function RequestModel(q: ConfigRequest): string { Strip(q.model.GetOr("")) }

  /** One vendor's settings after a request naming it. */
  function UpdatedVendor(v: VendorConfig, q: ConfigRequest): VendorConfig {
    var key := if q.clear then Some("") else if RequestKey(q) != "" then Some(RequestKey(q)) else v.apiKey;
    var model := if RequestModel(q) != "" then Some(RequestModel(q)) else v.model;
    VendorConfig(key, model)
  }

  /** `api_set_ai_config` on the saved configuration, as a value. */
  function Merged(saved: AiConfig, q: ConfigRequest): (r: AiConfig)
    ensures r.provider.Some? && r.gemini.Some? && r.openai.Some?
    ensures r.provider == if KnownProvider(q.provider) then q.provider else Loaded(saved).provider
    ensures RequestVendor(q) != "gemini" ==> r.gemini == Loaded(saved).gemini
    ensures RequestVendor(q) != "openai" ==> r.openai == Loaded(saved).openai
    ensures RequestVendor(q) in {"gemini", "openai"} && q.clear ==>
              (if RequestVendor(q) == "gemini" then r.gemini else r.openai).value.apiKey == Some("")
  {
    var c := Loaded(saved);
    var c1 := if KnownProvider(q.provider) then c.(provider := q.provider) else c;
    var vendor := RequestVendor(q);
    if vendor == "gemini" then c1.(gemini := Some(UpdatedVendor(c1.gemini.value, q)))
    else if vendor == "openai" then c1.(openai := Some(UpdatedVendor(c1.openai.value, q)))
    else c1
  }

  /** Sending the same settings twice leaves what sending them once left. */
  lemma MergeIdempotent(saved: AiConfig, q: ConfigRequest)
    ensures Merged(Merged(saved, q), q) == Merged(saved, q)
  {
  }

  /** The settings of the vendor called `vendor` ("gemini" or else "openai"). */
  function VendorOf(c: AiConfig, vendor: string): Option<VendorConfig> {
    if vendor == "gemini" then c.gemini else c.openai
  }

  /**
   * The named vendor's settings after a request: the key is cleared when
   * asked, else replaced by a non-blank stripped key, else kept; the model is
   * replaced by a non-blank stripped model, else kept.  The other vendor is
   * left as loaded.
   */
  lemma MergeUpdatesVendor(saved: AiConfig, q: ConfigRequest)
    requires RequestVendor(q) == "gemini" || RequestVendor(q) == "openai"
    ensures var before := VendorOf(Loaded(saved), RequestVendor(q)).value;
            var after := VendorOf(Merged(saved, q), RequestVendor(q)).value;
            && after.apiKey == (if q.clear then Some("")
                                else if RequestKey(q) != "" then Some(RequestKey(q)) else before.apiKey)
            && after.model == (if RequestModel(q) != "" then Some(RequestModel(q)) else before.model)
    ensures var other := if RequestVendor(q) == "gemini" then "openai" else "gemini";
            VendorOf(Merged(saved, q), other) == VendorOf(Loaded(saved), other)
  {
  }

  /** A request carrying a key stores it, stripped, for the vendor it names, unless it also asks to clear. */
  lemma MergeStoresKey(saved: AiConfig, q: ConfigRequest)
    requires RequestVendor(q) == "gemini" || RequestVendor(q) == "openai"
    requires !q.clear && RequestKey(q) != ""
    ensures VendorOf(Merged(saved, q), RequestVendor(q)).value.apiKey == Some(RequestKey(q))
  {
  }

  /** The saved AI configuration, updated in place by a settings request. */
  class AiConfigStore {
    var saved: AiConfig

    constructor(initial: AiConfig)
      ensures saved == initial
    {
      saved := initial;
    }

    /** `api_set_ai_config`: load with defaults, apply the request, save. */
    method Update(q: ConfigRequest)
      modifies this
      ensures saved == Merged(old(saved), q)
    {
      var cfg := Loaded(saved);
      if KnownProvider(q.provider) {
        cfg := cfg.(provider := q.provider);
      }
      var vendor := Lower(q.vendor.GetOr(""));
      var apiKey := Strip(q.apiKey.GetOr(""));
      var model := Strip(q.model.GetOr(""));
      if vendor == "gemini" || vendor == "openai" {
        var v := if vendor == "gemini" then cfg.gemini.value else cfg.openai.value;
        if q.clear {
          v := v.(apiKey := Some(""));
        } else if apiKey != "" {
          v := v.(apiKey := Some(apiKey));
        }
        if model != "" {
          v := v.(model := Some(model));
        }
        if vendor == "gemini" {
          cfg := cfg.(gemini := Some(v));
        } else {
          cfg := cfg.(openai := Some(v));
        }
      }
      saved := cfg;
    }
  }

  /** The environment variables the provider choice reads; `None` is an unset variable. */
  datatype AiEnv = AiEnv(provider: Option<string>, geminiKey: Option<string>, geminiModel: Option<string>,
                         openaiKey: Option<string>, openaiModel: Option<string>)

  /** Python's `a or b` for an optional string: `a` when it is set and non-empty. */
  function OrElse(a: Option<string>, b: string): string {
    if a.Some? && a.value != "" then a.value else b
  }

  function GeminiKey(cfg: AiConfig, env: AiEnv): string {
    OrElse(env.geminiKey, Loaded(cfg).gemini.value.apiKey.GetOr(""))
  }

  function GeminiModel(cfg: AiConfig, env: AiEnv): string {
    OrElse(env.geminiModel, Loaded(cfg).gemini.value.model.GetOr("gemini-1.5-flash"))
  }

  function OpenAIKey(cfg: AiConfig, env: AiEnv): string {
    OrElse(env.openaiKey, Loaded(cfg).openai.value.apiKey.GetOr(""))
  }

  function OpenAIModel(cfg: AiConfig, env: AiEnv): string {
    OrElse(env.openaiModel, Loaded(cfg).openai.value.model.GetOr("gpt-4o-mini"))
  }

  /**
   * The provider asked for: a recognised preference, else the saved one,
   * else the environment's (default "auto"), lower-cased.
   */
  function AskedProvider(preferred: Option<string>, cfg: AiConfig, env: AiEnv): string {
    var pref := if KnownProvider(preferred) then preferred else None;
    Lower(OrElse(pref, OrElse(Loaded(cfg).provider, env.provider.GetOr("auto"))))
  }

  /** The generator chosen, with the key and model it is given. */
  datatype Choice = Choice(provider: Provider, key: string, model: string)

  /**
   * `_choose_provider_and_generate`'s decision: an explicit choice of a
   * vendor whose key is known is honoured; otherwise a Gemini key beats an
   * OpenAI key; the offline generator runs exactly when neither key is known.
   */
  function ChooseProvider(preferred: Option<string>, cfg: AiConfig, env: AiEnv): (c: Choice)
    ensures c.provider == Offline <==> GeminiKey(cfg, env) == "" && OpenAIKey(cfg, env) == ""
    ensures c.provider == Gemini ==> c.key == GeminiKey(cfg, env) != "" && c.model == GeminiModel(cfg, env)
    ensures c.provider == OpenAI ==> c.key == OpenAIKey(cfg, env) != "" && c.model == OpenAIModel(cfg, env)
    ensures AskedProvider(preferred, cfg, env) == "openai" && OpenAIKey(cfg, env) != "" ==> c.provider == OpenAI
    ensures AskedProvider(preferred, cfg, env) != "openai" && GeminiKey(cfg, env) != "" ==> c.provider == Gemini
  {
    var asked := AskedProvider(preferred, cfg, env);
    var gemKey := GeminiKey(cfg, env);
    var oaKey := OpenAIKey(cfg, env);
    if asked == "gemini" && gemKey != "" then Choice(Gemini, gemKey, GeminiModel(cfg, env))
    else if asked == "openai" && oaKey != "" then Choice(OpenAI, oaKey, OpenAIModel(cfg, env))
    else if gemKey != "" then Choice(Gemini, gemKey, GeminiModel(cfg, env))
    else if oaKey != "" then Choice(OpenAI, oaKey, OpenAIModel(cfg, env))
    else Choice(Offline, "", "")
  }

  /** An unrecognised preference is ignored: the choice is as if none was given. */
  lemma UnknownPreferenceIgnored(x: string, cfg: AiConfig, env: AiEnv)
    requires x !in {"auto", "gemini", "openai"}
    ensures ChooseProvider(Some(x), cfg, env) == ChooseProvider(None, cfg, env)
  {
  }

  /** A vendor named in the request wins over the saved and environment settings. */
  lemma PreferenceWins(p: string, cfg: AiConfig, env: AiEnv)
    requires p == "gemini" || p == "openai"
    ensures AskedProvider(Some(p), cfg, env) == p
  {
    assert Lower(p) == p;
  }

  /**
   * Generate with the chosen provider: the offline generator when no key is
   * known or when the vendor gave no usable reply (`None`: its library is
   * missing or the call failed), the reply's post-processing otherwise. The
   * reported provider is the one chosen, even when the call failed.
   */
  method GenerateQueries(table: seq<Template>, prompt: string, count: int, preferred: Option<string>,
                         cfg: AiConfig, env: AiEnv, reply: Option<string>)
    returns (qs: seq<string>, used: string)
    requires |table| > 0
    ensures used == ProviderName(ChooseProvider(preferred, cfg, env).provider)
    ensures ChooseProvider(preferred, cfg, env).provider == Offline || reply.None? ==>
              qs == FallbackQueries(table, Parts(prompt), count)
    ensures count >= 1 ==> 1 <= |qs| <= count
    ensures ChooseProvider(preferred, cfg, env).provider != Offline && reply.Some? ==>
              qs == Settled(table, UniqueLines(reply.value), Parts(prompt), count)
  {
    var choice := ChooseProvider(preferred, cfg, env);
    if choice.provider == Offline || reply.None? {
      qs := FallbackGenerateQueries(table, prompt, count);
    } else {
      qs := ReplyQueries(table, reply.value, prompt, count);
    }
    used := ProviderName(choice.provider);
  }

  /** `int(count or 30)` clamped to 1..200: absent or zero asks for 30. */
  function ClampCount(raw: Option<int>): (n: int)
    ensures 1 <= n <= 200
    ensures raw.None? || raw == Some(0) ==> n == 30
    ensures raw.Some? && 1 <= raw.value <= 200 ==> n == raw.value
    ensures raw.Some? && raw.value > 200 ==> n == 200
    ensures raw.Some? && raw.value < 0 ==> n == 1
  {
    var c := if raw.None? || raw.value == 0 then 30 else raw.value;
    Max(1, Min(200, c))
  }

  /** The request's provider, lower-cased; an absent or empty one is no preference. */
  function RequestedProvider(raw: Option<string>): (p: Option<string>)
    ensures p.Some? ==> raw.Some? && p.value != "" && p.value == Lower(raw.value)
    ensures p.None? <==> raw.None? || raw.value == ""
  {
    var lowered := Lower(raw.GetOr(""));
    if lowered == "" then None else Some(lowered)
  }

  /**
   * `api_ai_generate`: strip the prompt, clamp the count, normalise the
   * preference and generate; between 1 and 200 queries come back, and never
   * more than the clamped count.
   */
  method AiGenerate(prompt: Option<string>, count: Option<int>, provider: Option<string>,
                    cfg: AiConfig, env: AiEnv, reply: Option<string>)
    returns (fruits: seq<string>, used: string)
    ensures 1 <= |fruits| <= ClampCount(count) <= 200
    ensures used == ProviderName(ChooseProvider(RequestedProvider(provider), cfg, env).provider)
    ensures ChooseProvider(RequestedProvider(provider), cfg, env).provider == Offline || reply.None? ==>
              fruits == FallbackQueries(Templates, Parts(Strip(prompt.GetOr(""))), ClampCount(count))
    ensures ChooseProvider(RequestedProvider(provider), cfg, env).provider != Offline && reply.Some? ==>
              fruits == Settled(Templates, UniqueLines(reply.value), Parts(Strip(prompt.GetOr(""))), ClampCount(count))
  {
    var p := Strip(prompt.GetOr(""));
    var n := ClampCount(count);
    var preferred := RequestedProvider(provider);
    fruits, used := GenerateQueries(Templates, p, n, preferred, cfg, env, reply);
  }
}
