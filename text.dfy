/**
 * String helpers shared by the three cores: Python's str.lower, str.strip,
 * str.split and str.join, slicing truncation, dict.fromkeys de-duplication,
 * and the '%' count that the database driver uses to match placeholders.
 */
module Text {

  datatype Option<T> = None | Some(value: T)

  /** Python's str.isspace() for one character. */
  predicate IsSpace(c: char) {
    c == ' ' || ('\t' <= c <= '\r') || ('\U{1C}' <= c <= '\U{1F}') ||
    c == '\U{85}' || c == '\U{A0}' || c == '\U{1680}' || ('\U{2000}' <= c <= '\U{200A}') ||
    c == '\U{2028}' || c == '\U{2029}' || c == '\U{202F}' || c == '\U{205F}' || c == '\U{3000}'
  }

  predicate AllSpace(s: string) {
    forall i :: 0 <= i < |s| ==> IsSpace(s[i])
  }

  /** Number of leading whitespace characters. */
  function LeadingSpace(s: string): (n: nat)
    ensures n <= |s| && AllSpace(s[..n])
    ensures n < |s| ==> !IsSpace(s[n])
  {
    if |s| > 0 && IsSpace(s[0]) then 1 + LeadingSpace(s[1..]) else 0
  }

  /** Number of trailing whitespace characters. */
  function TrailingSpace(s: string): (n: nat)
    ensures n <= |s| && AllSpace(s[|s| - n..])
    ensures n < |s| ==> !IsSpace(s[|s| - n - 1])
  {
    if |s| > 0 && IsSpace(s[|s| - 1]) then 1 + TrailingSpace(s[..|s| - 1]) else 0
  }

  /** str.strip(): the input with its leading and trailing whitespace removed. */
  function Strip(s: string): (r: string)
    ensures exists i, j :: 0 <= i <= j <= |s| && r == s[i..j] && AllSpace(s[..i]) && AllSpace(s[j..])
    ensures |r| > 0 ==> !IsSpace(r[0]) && !IsSpace(r[|r| - 1])
    ensures AllSpace(s) <==> r == []
    ensures forall c :: c in r ==> c in s
  {
    var i := LeadingSpace(s);
    if i == |s| then
      assert s[..i] == s;
      assert AllSpace(s[..0]) && AllSpace(s[0..]) && s[0..0] == [];
      []
    else
      var t := TrailingSpace(s[i..]);
      var j := |s| - t;
      assert s[i..][|s[i..]| - t..] == s[j..];
      assert !IsSpace(s[i]);
      s[i..j]
  }

  /** str.lower() on the ASCII letters. */
  function LowerChar(c: char): (d: char)
    ensures 'A' <= c <= 'Z' ==> d as int == c as int + 32
    ensures !('A' <= c <= 'Z') ==> d == c
  {
    if 'A' <= c <= 'Z' then (c as int + 32) as char else c
  }

  function Lower(s: string): (r: string)
    ensures |r| == |s|
    ensures forall i :: 0 <= i < |s| ==> r[i] == LowerChar(s[i])
  {
    seq(|s|, i requires 0 <= i < |s| => LowerChar(s[i]))
  }

  /** `xs[:n]`: the first n elements, or all of them when there are fewer. */
  function Take<T>(xs: seq<T>, n: nat): (r: seq<T>)
    ensures |r| == if n < |xs| then n else |xs|
    ensures r <= xs
  {
    if n < |xs| then xs[..n] else xs
  }

  /** sep.join(parts) */
  function Join(parts: seq<string>, sep: string): (r: string)
  {
    if |parts| == 0 then [] else if |parts| == 1 then parts[0] else parts[0] + sep + Join(parts[1..], sep)
  }

  /** s.split(sep) for a one-character separator: never empty, and joining the pieces gives s back. */
  function Split(s: string, sep: char): (parts: seq<string>)
    ensures |parts| >= 1
    ensures forall p :: p in parts ==> sep !in p
    ensures Join(parts, [sep]) == s
    decreases |s|
  {
    if sep !in s then [s]
    else
      var k := FirstIndex(s, sep);
      var rest := Split(s[k + 1..], sep);
      assert s == s[..k] + [sep] + s[k + 1..];
      [s[..k]] + rest
  }

  /** Splitting a join of separator-free pieces gives the pieces back. */
  lemma {:induction false} SplitJoin(parts: seq<string>, sep: char)
    requires |parts| >= 1
    requires forall p :: p in parts ==> sep !in p
    ensures Split(Join(parts, [sep]), sep) == parts
  {
    if |parts| > 1 {
      var p0, tail := parts[0], parts[1..];
      assert p0 in parts && sep !in p0;
      var rest := Join(tail, [sep]);
      var s := Join(parts, [sep]);
      assert s == p0 + [sep] + rest;
      assert s[|p0|] == sep;
      assert forall i :: 0 <= i < |p0| ==> s[i] == p0[i];
      FirstIndexIs(s, sep, |p0|);
      assert s[..|p0|] == p0 && s[|p0| + 1..] == rest;
      SplitJoin(tail, sep);
      assert Split(s, sep) == [p0] + Split(rest, sep);
      assert parts == [p0] + tail;
    }
  }

  /** Number of '%' characters: the driver substitutes one parameter per "%s". */
  function PercentCount(s: string): (n: nat)
    ensures n <= |s|
    ensures n == 0 <==> '%' !in s
  {
    if |s| == 0 then 0 else (if s[0] == '%' then 1 else 0) + PercentCount(s[1..])
  }

  lemma {:induction false} PercentCountAppend(a: string, b: string)
    ensures PercentCount(a + b) == PercentCount(a) + PercentCount(b)
  {
    if |a| > 0 {
      assert (a + b)[1..] == a[1..] + b;
      PercentCountAppend(a[1..], b);
    } else {
      assert a + b == b;
    }
  }

  /** The '%' count of a join is the sum over its pieces and separators. */
  lemma {:induction false} PercentCountJoin(parts: seq<string>, sep: string)
    requires '%' !in sep
    requires forall p :: p in parts ==> PercentCount(p) == 1
    ensures PercentCount(Join(parts, sep)) == |parts|
  {
    if |parts| > 1 {
      PercentCountJoin(parts[1..], sep);
      PercentCountAppend(parts[0], sep);
      PercentCountAppend(parts[0] + sep, Join(parts[1..], sep));
    }
  }

  /** The pieces of a statement's text written one after another. */
  function Concat(pieces: seq<string>): string {
    if |pieces| == 0 then [] else pieces[0] + Concat(pieces[1..])
  }

  lemma {:induction false} ConcatHasNoPercent(pieces: seq<string>)
    requires forall k :: 0 <= k < |pieces| ==> '%' !in pieces[k]
    ensures PercentCount(Concat(pieces)) == 0
  {
    if |pieces| > 0 {
      ConcatHasNoPercent(pieces[1..]);
      PercentCountAppend(pieces[0], Concat(pieces[1..]));
    }
  }

  /** The fixed lines of a statement written one after another. The lines are
      copied through a comprehension, so the verifier reasons about the text
      line by line instead of evaluating the whole literal. */
  function Lines(lines: seq<string>): string {
    Concat(seq(|lines|, k requires 0 <= k < |lines| => lines[k]))
  }

  lemma LinesHaveNoPercent(lines: seq<string>)
    requires forall k :: 0 <= k < |lines| ==> '%' !in lines[k]
    ensures PercentCount(Lines(lines)) == 0
  {
    ConcatHasNoPercent(seq(|lines|, k requires 0 <= k < |lines| => lines[k]));
  }

  /** '%' counts add up over a concatenation. */
  lemma AppendCounts(a: string, b: string, m: nat, n: nat)
    requires PercentCount(a) == m && PercentCount(b) == n
    ensures PercentCount(a + b) == m + n
  {
    PercentCountAppend(a, b);
  }

  /** `','.join(['%s'] * n)` */
  function PlaceholderList(n: nat): (r: string)
    ensures PercentCount(r) == n
    ensures n == 0 <==> r == []
  {
    var parts := seq(n, _ => "%s");
    PercentCountJoin(parts, ",");
    assert n > 0 ==> Join(parts, ",")[0] == '%' by {
      if n > 1 { assert Join(parts, ",") == "%s" + "," + Join(parts[1..], ","); }
    }
    Join(parts, ",")
  }

  predicate IsDigit(c: char) {
    '0' <= c <= '9'
  }

  predicate AllDigits(s: string) {
    forall i :: 0 <= i < |s| ==> IsDigit(s[i])
  }

  /** The value of a string of decimal digits, most significant first. */
  function DigitsValue(s: string): (n: nat)
    requires AllDigits(s)
  {
    if |s| == 0 then 0 else 10 * DigitsValue(s[..|s| - 1]) + (s[|s| - 1] as int - '0' as int)
  }

  /** The decimal digits of n, as str() writes them. */
  function Digits(n: nat): (s: string)
    ensures |s| > 0 && AllDigits(s)
    ensures DigitsValue(s) == n
  {
    if n < 10 then [('0' as int + n) as char]
    else
      var s := Digits(n / 10) + [('0' as int + n % 10) as char];
      assert s[..|s| - 1] == Digits(n / 10);
      s
  }

  /** str(n) for an int. */
  function Show(n: int): string {
    if n < 0 then "-" + Digits(-n) else Digits(n)
  }

  predicate NoDuplicates<T(==)>(xs: seq<T>) {
    forall i, j :: 0 <= i < j < |xs| ==> xs[i] != xs[j]
  }

  /** A list without duplicates holds each value at most once. */
  lemma {:induction false} NoDuplicatesCount<T>(xs: seq<T>, x: T)
    requires NoDuplicates(xs)
    ensures multiset(xs)[x] <= 1
  {
    if |xs| > 0 {
      var tail := xs[1..];
      assert xs == [xs[0]] + tail;
      assert forall i, j :: 0 <= i < j < |tail| ==> tail[i] == xs[i + 1] && tail[j] == xs[j + 1];
      NoDuplicatesCount(tail, x);
      if xs[0] == x {
        assert forall k :: 0 <= k < |tail| ==> tail[k] == xs[k + 1] != xs[0];
        assert x !in tail;
      }
    }
  }

  /** A prefix holds no value more often than the whole list. */
  lemma TakeMultiset<T>(xs: seq<T>, n: nat)
    ensures multiset(Take(xs, n)) <= multiset(xs)
  {
    var r := Take(xs, n);
    assert xs == r + xs[|r|..];
  }

  /** Two positions holding the same value make it occur twice. */
  lemma TwoOccurrences<T>(xs: seq<T>, i: nat, j: nat)
    requires i < j < |xs|
    ensures xs[i] == xs[j] ==> multiset(xs)[xs[i]] >= 2
  {
    assert xs == xs[..j] + xs[j..];
    assert xs[..j][i] == xs[i] && xs[j..][0] == xs[j];
  }

  /** A sub-multiset of a list without duplicates has no duplicates either. */
  lemma SubMultisetNoDuplicates<T>(a: seq<T>, b: seq<T>)
    requires multiset(a) <= multiset(b) && NoDuplicates(b)
    ensures NoDuplicates(a)
  {
    forall i, j | 0 <= i < j < |a| ensures a[i] != a[j] {
      TwoOccurrences(a, i, j);
      NoDuplicatesCount(b, a[i]);
    }
  }

  /** Position of the first occurrence of x in xs. */
  function FirstIndex<T(==)>(xs: seq<T>, x: T): (k: nat)
    requires x in xs
    ensures k < |xs| && xs[k] == x
    ensures forall i :: 0 <= i < k ==> xs[i] != x
  {
    if xs[0] == x then 0 else 1 + FirstIndex(xs[1..], x)
  }

  /** The first occurrence is the one with no earlier occurrence. */
  lemma {:induction false} FirstIndexIs<T>(xs: seq<T>, x: T, k: nat)
    requires k < |xs| && xs[k] == x
    requires forall i :: 0 <= i < k ==> xs[i] != x
    ensures FirstIndex(xs, x) == k
  {
    if k > 0 {
      FirstIndexIs(xs[1..], x, k - 1);
    }
  }

  /** `list(dict.fromkeys(xs))`: first occurrences kept, later duplicates dropped. */
  function Unique<T(==,!new)>(xs: seq<T>): (u: seq<T>)
    ensures NoDuplicates(u)
    ensures forall x :: x in u <==> x in xs
    ensures |u| <= |xs|
  {
    if |xs| == 0 then []
    else
      var u := Unique(xs[..|xs| - 1]);
      var x := xs[|xs| - 1];
      assert forall y :: y in xs <==> y in xs[..|xs| - 1] || y == x by {
        assert xs == xs[..|xs| - 1] + [x];
      }
      if x in u then u else u + [x]
  }

  lemma FirstIndexPrefix<T>(xs: seq<T>, x: T, y: T)
    requires y in xs
    ensures FirstIndex(xs + [x], y) == FirstIndex(xs, y)
  {
    FirstIndexIs(xs + [x], y, FirstIndex(xs, y));
  }

  /** Unique keeps the input's order of first occurrence. */
  lemma {:induction false} UniqueOrder<T(!new)>(xs: seq<T>)
    ensures forall i, j :: 0 <= i < j < |Unique(xs)| ==>
      FirstIndex(xs, Unique(xs)[i]) < FirstIndex(xs, Unique(xs)[j])
  {
    if |xs| > 0 {
      var init := xs[..|xs| - 1];
      var x := xs[|xs| - 1];
      assert xs == init + [x];
      UniqueOrder(init);
      var u := Unique(init);
      forall y | y in u ensures FirstIndex(xs, y) == FirstIndex(init, y) && FirstIndex(init, y) < |init| {
        FirstIndexPrefix(init, x, y);
      }
      if x !in u {
        assert x !in init;
        FirstIndexIs(xs, x, |init|);
        forall i, j | 0 <= i < j < |Unique(xs)|
          ensures FirstIndex(xs, Unique(xs)[i]) < FirstIndex(xs, Unique(xs)[j])
        {
          assert Unique(xs) == u + [x];
          if j < |u| {
            assert Unique(xs)[i] == u[i] && Unique(xs)[j] == u[j];
          } else {
            assert Unique(xs)[i] == u[i];
          }
        }
      }
    }
  }

  /** A list without duplicates is returned unchanged. */
  lemma {:induction false} UniqueOfDistinct<T(!new)>(xs: seq<T>)
    requires NoDuplicates(xs)
    ensures Unique(xs) == xs
  {
    if |xs| > 0 {
      var init := xs[..|xs| - 1];
      assert NoDuplicates(init);
      UniqueOfDistinct(init);
      assert xs[|xs| - 1] !in init;
      assert xs == init + [xs[|xs| - 1]];
    }
  }

  /** String order used for ORDER BY on titles: code-point lexicographic order. */
  predicate LexLe(a: string, b: string) {
    |a| == 0 || (|b| > 0 && (a[0] < b[0] || (a[0] == b[0] && LexLe(a[1..], b[1..]))))
  }

  lemma {:induction false} LexLeTotal(a: string, b: string)
    ensures LexLe(a, b) || LexLe(b, a)
  {
    if |a| > 0 && |b| > 0 && a[0] == b[0] {
      LexLeTotal(a[1..], b[1..]);
    }
  }

  lemma {:induction false} LexLeTransitive(a: string, b: string, c: string)
    requires LexLe(a, b) && LexLe(b, c)
    ensures LexLe(a, c)
  {
    if |a| > 0 && a[0] == b[0] && b[0] == c[0] {
      LexLeTransitive(a[1..], b[1..], c[1..]);
    }
  }
}
