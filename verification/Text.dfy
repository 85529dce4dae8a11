/** The string operations of Python that the modelled code relies on. */
module Text {
  import opened Prelude

  /** `s.replace(from, to)` for single characters. */
  function Replace(s: string, from: char, to: char): (r: string)
    ensures |r| == |s|
    ensures forall i :: 0 <= i < |s| ==> r[i] == if s[i] == from then to else s[i]
  {
    seq(|s|, i requires 0 <= i < |s| => if s[i] == from then to else s[i])
  }

  /** The first position whose character is one of `stops`, or the length of the string. */
  function IndexOf(s: string, stops: set<char>): (i: nat)
    ensures i <= |s|
    ensures i < |s| ==> s[i] in stops
    ensures forall j :: 0 <= j < i ==> s[j] !in stops
  {
    if |s| == 0 || s[0] in stops then 0 else 1 + IndexOf(s[1..], stops)
  }

  /** Where a string splits is determined by the characters around the split. */
  lemma {:induction false} IndexOfAppend(s: string, t: string, stops: set<char>)
    requires forall i :: 0 <= i < |s| ==> s[i] !in stops
    requires |t| == 0 || t[0] in stops
    ensures IndexOf(s + t, stops) == |s|
    ensures (s + t)[..|s|] == s && (s + t)[|s|..] == t
  {
    assert forall j :: 0 <= j < |s| ==> (s + t)[j] == s[j];
    if |t| > 0 {
      assert (s + t)[|s|] == t[0];
    }
  }

  // ----- comma-separated lists

  /** `s.split(c)`: always at least one piece. */
  function Split(s: string, c: char): (pieces: seq<string>)
    ensures |pieces| > 0
    decreases |s|
  {
    var i := IndexOf(s, {c});
    if i == |s| then [s] else [s[..i]] + Split(s[i + 1..], c)
  }

  /** `c.join(pieces)`. */
  function Join(pieces: seq<string>, c: char): string {
    if |pieces| == 0 then "" else if |pieces| == 1 then pieces[0] else pieces[0] + [c] + Join(pieces[1..], c)
  }

  lemma SplitWhole(s: string, c: char)
    requires c !in s
    ensures Split(s, c) == [s]
  {
    IndexOfAppend(s, "", {c});
    assert s + "" == s;
  }

  lemma SplitFirst(first: string, rest: string, c: char)
    requires c !in first
    ensures Split(first + [c] + rest, c) == [first] + Split(rest, c)
  {
    var s := first + [c] + rest;
    assert s == first + ([c] + rest);
    IndexOfAppend(first, [c] + rest, {c});
    assert s[|first| + 1..] == rest;
  }

  lemma {:induction false} SplitJoin(pieces: seq<string>, c: char)
    requires |pieces| > 0
    requires forall p :: p in pieces ==> c !in p
    ensures Split(Join(pieces, c), c) == pieces
    decreases |pieces|
  {
    hide Split;
    assert pieces[0] in pieces;
    if |pieces| == 1 {
      SplitWhole(pieces[0], c);
    } else {
      var rest := Join(pieces[1..], c);
      SplitFirst(pieces[0], rest, c);
      SplitJoin(pieces[1..], c);
    }
  }

  // ----- lexicographic order and sorting

  /** Python's `<=` on strings. */
  predicate LexLeq(a: string, b: string) {
    |a| == 0 || (|b| > 0 && (a[0] < b[0] || (a[0] == b[0] && LexLeq(a[1..], b[1..]))))
  }

  /** The order is the usual one: a prefix comes first, otherwise the first difference decides. */
  lemma {:induction false} LexLeqMeans(a: string, b: string)
    ensures LexLeq(a, b) <==> a <= b || exists i :: FirstDifference(a, b, i) && a[i] < b[i]
    decreases |a|
  {
    if |a| == 0 || |b| == 0 || a[0] != b[0] {
      if |a| > 0 && |b| > 0 {
        assert FirstDifference(a, b, 0);
      }
    } else {
      LexLeqMeans(a[1..], b[1..]);
      assert a == [a[0]] + a[1..] && b == [b[0]] + b[1..];
      assert a <= b <==> a[1..] <= b[1..];
      if i :| FirstDifference(a, b, i) && a[i] < b[i] {
        assert FirstDifference(a[1..], b[1..], i - 1);
      }
      if i :| FirstDifference(a[1..], b[1..], i) && a[1..][i] < b[1..][i] {
        assert FirstDifference(a, b, i + 1);
      }
    }
  }

  ghost predicate FirstDifference(a: string, b: string, i: int) {
    0 <= i < |a| && i < |b| && a[i] != b[i] && forall j :: 0 <= j < i ==> a[j] == b[j]
  }

  lemma LexTotal(a: string, b: string)
    ensures LexLeq(a, b) || LexLeq(b, a)
    ensures LexLeq(a, b) && LexLeq(b, a) ==> a == b
    decreases |a|
  {
    if |a| > 0 && |b| > 0 && a[0] == b[0] {
      LexTotal(a[1..], b[1..]);
      assert a == [a[0]] + a[1..] && b == [b[0]] + b[1..];
    }
  }

  lemma LexTransitive(a: string, b: string, c: string)
    requires LexLeq(a, b) && LexLeq(b, c)
    ensures LexLeq(a, c)
    decreases |a|
  {
    if |a| > 0 && a[0] == b[0] && b[0] == c[0] {
      LexTransitive(a[1..], b[1..], c[1..]);
    }
  }

  ghost predicate Sorted(xs: seq<string>) {
    forall i, j :: 0 <= i < j < |xs| ==> LexLeq(xs[i], xs[j])
  }

  /** `x` put in its place in a sorted list. */
  function Insert(x: string, xs: seq<string>): (r: seq<string>)
    ensures multiset(r) == multiset(xs) + multiset{x}
  {
    if |xs| == 0 then [x]
    else
      assert xs == [xs[0]] + xs[1..];
      if LexLeq(x, xs[0]) then [x] + xs else [xs[0]] + Insert(x, xs[1..])
  }

  lemma {:induction false} InsertKeepsSorted(x: string, xs: seq<string>)
    requires Sorted(xs)
    ensures Sorted(Insert(x, xs))
  {
    var r := Insert(x, xs);
    if |xs| == 0 {
    } else if LexLeq(x, xs[0]) {
      forall j | 0 < j < |xs| ensures LexLeq(x, xs[j]) {
        LexTransitive(x, xs[0], xs[j]);
      }
    } else {
      LexTotal(x, xs[0]);
      InsertKeepsSorted(x, xs[1..]);
      var rest := Insert(x, xs[1..]);
      forall y | y in rest ensures LexLeq(xs[0], y) {
        assert y in multiset(rest);
        assert y == x || y in xs[1..];
      }
    }
  }

  /** `sorted(xs)`. */
  function Sort(xs: seq<string>): (r: seq<string>)
    ensures Sorted(r)
    ensures multiset(r) == multiset(xs)
  {
    if |xs| == 0 then [] else
    assert xs == [xs[0]] + xs[1..];
    InsertKeepsSorted(xs[0], Sort(xs[1..]));
    Insert(xs[0], Sort(xs[1..]))
  }

  lemma SortedHead(a: seq<string>, x: string)
    requires Sorted(a) && x in a
    ensures LexLeq(a[0], x)
  {
    LexTotal(a[0], a[0]);
  }

  lemma SortedTail(a: seq<string>)
    requires Sorted(a) && |a| > 0
    ensures Sorted(a[1..])
    ensures a == [a[0]] + a[1..] && multiset(a) == multiset(a[1..]) + multiset{a[0]}
  {
    hide LexLeq;
    assert a == [a[0]] + a[1..];
  }

  /** A sorted sequence is determined by its elements. */
  lemma {:induction false} SortedUnique(a: seq<string>, b: seq<string>)
    requires Sorted(a) && Sorted(b)
    requires multiset(a) == multiset(b)
    ensures a == b
    decreases |a|
  {
    hide LexLeq, Sorted;
    assert |a| == |multiset(a)| == |multiset(b)| == |b|;
    if |a| == 0 {
    } else {
      assert a[0] in multiset(b) && b[0] in multiset(a);
      SortedHead(a, b[0]);
      SortedHead(b, a[0]);
      LexTotal(a[0], b[0]);
      SortedTail(a);
      SortedTail(b);
      calc {
        multiset(a[1..]);
        multiset(a) - multiset{a[0]};
        multiset(b) - multiset{b[0]};
        multiset(b[1..]);
      }
      SortedUnique(a[1..], b[1..]);
    }
  }

  /** `sorted` gives the same list for every ordering of the same elements. */
  lemma SortIgnoresOrder(a: seq<string>, b: seq<string>)
    requires multiset(a) == multiset(b)
    ensures Sort(a) == Sort(b)
  {
    SortedUnique(Sort(a), Sort(b));
  }

  // ----- decimal numerals

  predicate IsDigit(c: char) { '0' <= c <= '9' }

  /** `str(n)`. */
  function Decimal(n: nat): (s: string)
    ensures |s| > 0 && forall i :: 0 <= i < |s| ==> IsDigit(s[i])
    ensures ParseDecimal(s) == n
    ensures n > 0 ==> s[0] != '0'
    ensures n == 0 ==> s == "0"
  {
    var last := [((n % 10) + '0' as int) as char];
    if n < 10 then last else Decimal(n / 10) + last
  }

  /** `int(s)` on a string of ASCII digits. */
  function ParseDecimal(s: string): nat
    requires forall i :: 0 <= i < |s| ==> IsDigit(s[i])
  {
    if |s| == 0 then 0
    else
      assert IsDigit(s[|s| - 1]);
      10 * ParseDecimal(s[..|s| - 1]) + (s[|s| - 1] as int - '0' as int)
  }

  // ----- letters

  function LowerChar(c: char): char {
    if 'A' <= c <= 'Z' then (c as int + 32) as char else c
  }

  /** `s.lower()`, on ASCII letters. */
  function Lower(s: string): (r: string)
    ensures |r| == |s|
  {
    seq(|s|, i requires 0 <= i < |s| => LowerChar(s[i]))
  }

  predicate IsLetter(c: char) { 'a' <= c <= 'z' || 'A' <= c <= 'Z' }

  const UPPER_CASE := "ABCDEFGHIJKLMNOPQRSTUVWXYZ"
  const LOWER_CASE := "abcdefghijklmnopqrstuvwxyz"
  const DIGITS := "0123456789"

  /** The classes of characters, listed. */
  lemma CharacterClasses(c: char)
    ensures IsLetter(c) <==> c in UPPER_CASE || c in LOWER_CASE
    ensures IsDigit(c) <==> c in DIGITS
  {
    Alphabets();
    if 'A' <= c <= 'Z' {
      assert UPPER_CASE[c as int - 65] == c;
    }
    if 'a' <= c <= 'z' {
      assert LOWER_CASE[c as int - 97] == c;
    }
    if '0' <= c <= '9' {
      assert DIGITS[c as int - 48] == c;
    }
  }

  /** Lower-casing takes each capital to its small letter and nothing else. */
  lemma LowerCaseOf(c: char)
    ensures forall i :: 0 <= i < 26 && c == UPPER_CASE[i] ==> LowerChar(c) == LOWER_CASE[i]
    ensures c !in UPPER_CASE ==> LowerChar(c) == c
  {
    Alphabets();
    if 'A' <= c <= 'Z' {
      assert UPPER_CASE[c as int - 65] == c;
    }
  }

  lemma Alphabets()
    ensures forall i :: 0 <= i < 26 ==> UPPER_CASE[i] as int == 65 + i
    ensures forall i :: 0 <= i < 26 ==> LOWER_CASE[i] as int == 97 + i
    ensures forall i :: 0 <= i < 10 ==> DIGITS[i] as int == 48 + i
  {
  }

  /** `needle in s`. */
  predicate Contains(s: string, needle: string) {
    needle <= s || (|s| > 0 && Contains(s[1..], needle))
  }

  ghost predicate OccursAt(s: string, needle: string, i: int) {
    0 <= i <= |s| - |needle| && s[i..i + |needle|] == needle
  }

  lemma OccursLater(s: string, needle: string, i: nat)
    requires |s| > 0
    ensures OccursAt(s[1..], needle, i) <==> OccursAt(s, needle, i + 1)
  {
    if i + 1 <= |s| - |needle| {
      assert s[1..][i..i + |needle|] == s[i + 1..i + 1 + |needle|];
    }
  }

  /** A string contains another exactly when that stands somewhere in it. */
  lemma {:induction false} ContainsMeans(s: string, needle: string)
    ensures Contains(s, needle) <==> exists i :: OccursAt(s, needle, i)
    decreases |s|
  {
    if needle <= s {
      assert OccursAt(s, needle, 0);
    } else if |s| > 0 {
      ContainsMeans(s[1..], needle);
      if i :| OccursAt(s, needle, i) {
        assert i > 0;
        OccursLater(s, needle, i - 1);
      }
      if i :| OccursAt(s[1..], needle, i) {
        OccursLater(s, needle, i);
      }
    }
  }
}
