/** Values shared by the three models: optional and failure-carrying results,
    the Java `long` range, decimal rendering of Java integers (as string
    concatenation renders them) and string order (that of `String.compareTo`
    on names within the Basic Multilingual Plane),
    with the list sort that follows it. */
module Common {

  datatype Option<+T> = None | Some(value: T)

  datatype Result<+T, +E> = Ok(value: T) | Err(error: E)

  /** The range of a Java `long`. */
  const LongMin: int := -0x8000_0000_0000_0000
  const LongMax: int := 0x7FFF_FFFF_FFFF_FFFF

  newtype Long = x: int | -0x8000_0000_0000_0000 <= x < 0x8000_0000_0000_0000

  // ---------------------------------------------------------------------
  // Decimal rendering, as `"" + n` renders an int or a long in Java.
  // ---------------------------------------------------------------------

  predicate IsDigit(c: char) {
    '0' <= c <= '9'
  }

  function DigitChar(d: nat): (c: char)
    requires d < 10
    ensures IsDigit(c) && c as int - '0' as int == d
  {
    (d + '0' as int) as char
  }

  function NatToString(n: nat): (s: string)
    ensures |s| >= 1
    ensures forall i :: 0 <= i < |s| ==> IsDigit(s[i])
    ensures s[0] == '0' <==> n == 0
    decreases n
  {
    if n < 10 then [DigitChar(n)] else NatToString(n / 10) + [DigitChar(n % 10)]
  }

  /** Java's decimal rendering of an integer: a leading '-' for a negative value. */
  function IntToString(x: int): (s: string)
    ensures |s| >= 1
    ensures forall i :: 1 <= i < |s| ==> IsDigit(s[i])
    ensures x >= 0 <==> IsDigit(s[0])
    ensures x < 0 ==> s[0] == '-' && |s| >= 2 && '1' <= s[1] <= '9'
    ensures s[0] == '0' <==> x == 0
  {
    if x < 0 then "-" + NatToString(-x) else NatToString(x)
  }

  /** The value a string of decimal digits denotes: the inverse of NatToString. */
  function DecimalValue(s: string): nat
    requires forall i :: 0 <= i < |s| ==> IsDigit(s[i])
  {
    if s == [] then 0
    else
      assert IsDigit(s[|s| - 1]);
      10 * DecimalValue(s[..|s| - 1]) + (s[|s| - 1] as int - '0' as int)
  }

  lemma {:induction false} DecimalRoundTrip(n: nat)
    ensures DecimalValue(NatToString(n)) == n
    decreases n
  {
    if n >= 10 {
      var s := NatToString(n / 10);
      var t := NatToString(n);
      assert t == s + [DigitChar(n % 10)];
      assert t[..|t| - 1] == s;
      DecimalRoundTrip(n / 10);
    }
  }

  /** Distinct numbers render distinctly, so names built from them do not collide. */
  lemma IntToStringInjective(x: int, y: int)
    requires IntToString(x) == IntToString(y)
    ensures x == y
  {
    if x >= 0 && y >= 0 {
      DecimalRoundTrip(x);
      DecimalRoundTrip(y);
    } else if x < 0 && y < 0 {
      assert NatToString(-x) == IntToString(x)[1..];
      assert NatToString(-y) == IntToString(y)[1..];
      DecimalRoundTrip(-x);
      DecimalRoundTrip(-y);
    }
  }

  /** A separator that occurs in neither left part splits a concatenation
      uniquely: the parts on both sides are determined. */
  lemma SplitAtSeparator(a: string, b: string, c: string, d: string, sep: char)
    requires a + [sep] + b == c + [sep] + d
    requires sep !in a && sep !in c
    ensures a == c && b == d
  {
    var s := a + [sep] + b;
    assert s[|a|] == sep && s[|c|] == sep;
    assert forall k :: 0 <= k < |a| ==> s[k] == a[k];
    assert forall k :: 0 <= k < |c| ==> s[k] == c[k];
    assert |a| == |c|;
    assert a == s[..|a|] && c == (c + [sep] + d)[..|c|];
    assert b == s[|a| + 1..] && d == (c + [sep] + d)[|c| + 1..];
  }

  // ---------------------------------------------------------------------
  // String order, character by character, a proper prefix first. This is
  // code-point order; `String.compareTo` compares UTF-16 code units, and
  // the two agree on strings within the Basic Multilingual Plane.
  // ---------------------------------------------------------------------

  predicate LexLe(a: string, b: string)
    decreases |a|
  {
    if a == [] then true
    else if b == [] then false
    else if a[0] != b[0] then a[0] < b[0]
    else LexLe(a[1..], b[1..])
  }

  lemma {:induction false} LexLeTotal(a: string, b: string)
    ensures LexLe(a, b) || LexLe(b, a)
    decreases |a|
  {
    if a != [] && b != [] && a[0] == b[0] {
      LexLeTotal(a[1..], b[1..]);
    }
  }

  lemma {:induction false} LexLeAntisymmetric(a: string, b: string)
    requires LexLe(a, b) && LexLe(b, a)
    ensures a == b
    decreases |a|
  {
    if a != [] && b != [] {
      LexLeAntisymmetric(a[1..], b[1..]);
      assert a == [a[0]] + a[1..] && b == [b[0]] + b[1..];
    }
  }

  lemma {:induction false} LexLeTransitive(a: string, b: string, c: string)
    requires LexLe(a, b) && LexLe(b, c)
    ensures LexLe(a, c)
    decreases |a|
  {
    if a != [] && b != [] && c != [] && a[0] == b[0] && b[0] == c[0] {
      LexLeTransitive(a[1..], b[1..], c[1..]);
    }
  }

  /** Each element is at most the next one in string order. */
  predicate Ascending(s: seq<string>) {
    forall i :: 0 <= i < |s| - 1 ==> LexLe(s[i], s[i + 1])
  }

  function Insert(x: string, s: seq<string>): (r: seq<string>)
    requires Ascending(s)
    ensures Ascending(r)
    ensures multiset(r) == multiset(s) + multiset{x}
    ensures |r| == |s| + 1
    ensures r[0] == x || (s != [] && r[0] == s[0])
    decreases |s|
  {
    if s == [] || LexLe(x, s[0]) then
      [x] + s
    else
      LexLeTotal(x, s[0]);
      var tail := Insert(x, s[1..]);
      assert s == [s[0]] + s[1..];
      [s[0]] + tail
  }

  /** The ascending rearrangement of a list, as `Collections.sort` gives it
      for names within the Basic Multilingual Plane. */
  function SortStrings(s: seq<string>): (r: seq<string>)
    ensures Ascending(r)
    ensures multiset(r) == multiset(s)
    ensures |r| == |s|
    decreases |s|
  {
    if s == [] then []
    else
      assert s == [s[0]] + s[1..];
      Insert(s[0], SortStrings(s[1..]))
  }

  /** Ascending order between neighbours extends to every pair of positions. */
  lemma {:induction false} AscendingPairs(s: seq<string>, i: int, j: int)
    requires Ascending(s)
    requires 0 <= i <= j < |s|
    ensures LexLe(s[i], s[j])
    decreases j - i
  {
    if i == j {
      LexLeReflexive(s[i]);
    } else {
      AscendingPairs(s, i + 1, j);
      LexLeTransitive(s[i], s[i + 1], s[j]);
    }
  }

  lemma {:induction false} LexLeReflexive(a: string)
    ensures LexLe(a, a)
    decreases |a|
  {
    if a != [] {
      LexLeReflexive(a[1..]);
    }
  }

  lemma AscendingHeadLe(s: seq<string>, x: string)
    requires Ascending(s) && x in s
    ensures LexLe(s[0], x)
  {
    var i :| 0 <= i < |s| && s[i] == x;
    AscendingPairs(s, 0, i);
  }

  /** Two ascending lists with the same elements are the same list, so the
      sorted order of a list does not depend on how it was sorted. */
  lemma {:induction false} AscendingUnique(r: seq<string>, t: seq<string>)
    requires Ascending(r) && Ascending(t)
    requires multiset(r) == multiset(t)
    ensures r == t
    decreases |r|
  {
    assert |t| == |r| by {
      assert |multiset(r)| == |r| && |multiset(t)| == |t|;
    }
    if r != [] {
      assert r[0] in multiset(t) && t[0] in multiset(r);
      AscendingHeadLe(t, r[0]);
      AscendingHeadLe(r, t[0]);
      LexLeAntisymmetric(r[0], t[0]);
      var r', t' := r[1..], t[1..];
      TailMultiset(r);
      TailMultiset(t);
      AscendingTail(r);
      AscendingTail(t);
      AscendingUnique(r', t');
    }
  }

  lemma TailMultiset<T>(s: seq<T>)
    requires s != []
    ensures multiset(s[1..]) == multiset(s) - multiset{s[0]}
  {
    assert s == [s[0]] + s[1..];
  }

  lemma AscendingTail(s: seq<string>)
    requires Ascending(s) && s != []
    ensures Ascending(s[1..])
  {
  }
}
