/** The Python string operations the core relies on: slicing, prefix and suffix tests,
    `os.path.basename`, `str.strip`, `str.join` and the decimal rendering of an integer. */
module PyText {

  /** Python's `s[:n]` for any integer `n`: a negative `n` counts from the end. */
  function SliceTo<T>(s: seq<T>, n: int): (r: seq<T>)
    ensures r <= s
    ensures 0 <= n ==> |r| == if |s| <= n then |s| else n
    ensures n < 0 ==> |r| == if |s| + n < 0 then 0 else |s| + n
  {
    if 0 <= n then (if |s| <= n then s else s[..n])
    else if |s| + n < 0 then [] else s[..|s| + n]
  }

  predicate StartsWith(s: string, prefix: string) {
    |prefix| <= |s| && s[..|prefix|] == prefix
  }

  predicate EndsWith(s: string, suffix: string) {
    |suffix| <= |s| && s[|s| - |suffix|..] == suffix
  }

  /** `os.path.basename` with the POSIX separator: everything after the last '/'. */
  function Basename(path: string): (r: string)
    ensures '/' !in r
    ensures EndsWith(path, r)
    ensures |r| < |path| ==> path[|path| - |r| - 1] == '/'
  {
    if |path| == 0 || path[|path| - 1] == '/' then ""
    else
      var init := path[..|path| - 1];
      var r := Basename(init) + [path[|path| - 1]];
      assert path == init + [path[|path| - 1]];
      r
  }

  /** A name without a separator is its own basename. */
  lemma BasenameOfPlainName(name: string)
    requires '/' !in name
    ensures Basename(name) == name
  {
  }

  /** The characters for which Python's `str.isspace()` holds. */
  predicate IsSpace(c: char) {
    c in {' ', '\t', '\n', '\r', '\U{0B}', '\U{0C}', '\U{1C}', '\U{1D}', '\U{1E}', '\U{1F}',
          '\U{85}', '\U{A0}', '\U{1680}', '\U{2028}', '\U{2029}', '\U{202F}', '\U{205F}', '\U{3000}'}
    || ('\U{2000}' <= c <= '\U{200A}')
  }

  /** `s.lstrip()`: the longest suffix of `s` that does not start with white space. */
  function StripLeft(s: string): (r: string)
    ensures EndsWith(s, r)
    ensures forall k :: 0 <= k < |s| - |r| ==> IsSpace(s[k])
    ensures r == [] || !IsSpace(r[0])
  {
    if |s| > 0 && IsSpace(s[0]) then
      var r := StripLeft(s[1..]);
      assert s[|s| - |r|..] == s[1..][|s[1..]| - |r|..];
      r
    else s
  }

  /** `s.rstrip()`: the longest prefix of `s` that does not end with white space. */
  function StripRight(s: string): (r: string)
    ensures StartsWith(s, r)
    ensures forall k :: |r| <= k < |s| ==> IsSpace(s[k])
    ensures r == [] || !IsSpace(r[|r| - 1])
  {
    if |s| > 0 && IsSpace(s[|s| - 1]) then
      var r := StripRight(s[..|s| - 1]);
      assert s[..|r|] == s[..|s| - 1][..|r|];
      r
    else s
  }

  /** `s[i..j]` leaves out only white space of `s`. */
  predicate OnlySpaceOutside(s: string, i: int, j: int) {
    && 0 <= i <= j <= |s|
    && (forall k :: 0 <= k < i ==> IsSpace(s[k]))
    && (forall k :: j <= k < |s| ==> IsSpace(s[k]))
  }

  /** `s.strip()`: a slice of `s` from which only white space was cut, at either end, and
      which neither starts nor ends with white space. */
  function Strip(s: string): (r: string)
    ensures exists i, j :: OnlySpaceOutside(s, i, j) && r == s[i..j]
    ensures r == [] || (!IsSpace(r[0]) && !IsSpace(r[|r| - 1]))
    ensures s == [] || (!IsSpace(s[0]) && !IsSpace(s[|s| - 1])) ==> r == s
  {
    var l := StripLeft(s);
    var r := StripRight(l);
    var i := |s| - |l|;
    assert l == s[i..];
    assert r == s[i..i + |r|] by {
      assert r == l[..|r|];
    }
    assert OnlySpaceOutside(s, i, i + |r|) by {
      forall k | i + |r| <= k < |s| ensures IsSpace(s[k]) {
        assert s[k] == l[k - i];
      }
    }
    r
  }

  /** Cutting away white space only keeps a suffix that neither begins nor ends with white
      space. */
  lemma SliceKeepsSuffix(s: string, c: string, i: int, j: int)
    requires OnlySpaceOutside(s, i, j)
    requires EndsWith(s, c)
    requires c != [] && !IsSpace(c[0]) && !IsSpace(c[|c| - 1])
    ensures EndsWith(s[i..j], c)
  {
    var n := |s| - |c|;
    assert s[|s| - 1] == c[|c| - 1];
    assert j == |s|;
    assert s[n] == c[0];
    assert i <= n;
    assert s[i..j][|s[i..j]| - |c|..] == s[n..];
  }

  /** Stripping keeps a suffix that neither begins nor ends with white space. */
  lemma StripKeepsSuffix(s: string, c: string)
    requires EndsWith(s, c)
    requires c != [] && !IsSpace(c[0]) && !IsSpace(c[|c| - 1])
    ensures EndsWith(Strip(s), c)
  {
    var r := Strip(s);
    var i, j :| OnlySpaceOutside(s, i, j) && r == s[i..j];
    SliceKeepsSuffix(s, c, i, j);
  }

  /** The combined length of a list of strings. */
  function TotalLength(xs: seq<string>): nat {
    if xs == [] then 0 else |xs[0]| + TotalLength(xs[1..])
  }

  /** `sep.join(xs)`: the strings in order, one separator between neighbours. */
  function Join(sep: string, xs: seq<string>): (r: string)
    ensures xs == [] ==> r == ""
    ensures |xs| == 1 ==> r == xs[0]
    ensures xs != [] ==> xs[0] <= r && EndsWith(r, xs[|xs| - 1])
  {
    if xs == [] then ""
    else if |xs| == 1 then xs[0]
    else
      var rest := Join(sep, xs[1..]);
      var r := xs[0] + sep + rest;
      assert xs[1..][|xs[1..]| - 1] == xs[|xs| - 1];
      assert r[|r| - |rest|..] == rest;
      r
  }

  /** The joined text holds every character of the strings and one separator between each
      two neighbours. */
  lemma {:induction false} JoinLength(sep: string, xs: seq<string>)
    requires xs != []
    ensures |Join(sep, xs)| == TotalLength(xs) + (|xs| - 1) * |sep|
  {
    if |xs| > 1 {
      JoinLength(sep, xs[1..]);
      calc {
        |Join(sep, xs)|;
        |xs[0]| + |sep| + |Join(sep, xs[1..])|;
        |xs[0]| + |sep| + TotalLength(xs[1..]) + (|xs| - 2) * |sep|;
        TotalLength(xs) + (|xs| - 1) * |sep|;
      }
    }
  }

  /** Joining one more string appends a separator and that string. */
  lemma {:induction false} JoinSnoc(sep: string, xs: seq<string>, x: string)
    requires xs != []
    ensures Join(sep, xs + [x]) == Join(sep, xs) + sep + x
  {
    var ys := xs + [x];
    if |xs| == 1 {
      assert ys[1..] == [x];
      assert Join(sep, ys) == xs[0] + sep + x;
    } else {
      assert ys[1..] == xs[1..] + [x];
      JoinSnoc(sep, xs[1..], x);
      calc {
        Join(sep, ys);
        xs[0] + sep + Join(sep, xs[1..] + [x]);
        xs[0] + sep + (Join(sep, xs[1..]) + sep + x);
        (xs[0] + sep + Join(sep, xs[1..])) + sep + x;
        Join(sep, xs) + sep + x;
      }
    }
  }

  predicate IsDigit(c: char) {
    '0' <= c <= '9'
  }

  /** The number a string of decimal digits denotes. */
  function DecimalValue(s: string): int {
    if s == [] then 0 else DecimalValue(s[..|s| - 1]) * 10 + (s[|s| - 1] as int - '0' as int)
  }

  /** `str(n)` for a natural number: its decimal digits, without leading zeros. */
  function NatToString(n: nat): (r: string)
    ensures |r| > 0
    ensures forall k :: 0 <= k < |r| ==> IsDigit(r[k])
    ensures |r| > 1 ==> r[0] != '0'
    ensures DecimalValue(r) == n
  {
    var d := ['0' + (n % 10) as char];
    if n < 10 then
      assert d[..0] == [];
      d
    else
      var r := NatToString(n / 10) + d;
      assert r[..|r| - 1] == NatToString(n / 10);
      r
  }

  // ---------------------------------------------------------------- string order

  /** Python's `<` on strings: code point by code point, a proper prefix first. */
  predicate LexLess(a: string, b: string)
    decreases |a|
  {
    if a == [] then b != []
    else if b == [] then false
    else if a[0] != b[0] then a[0] < b[0]
    else LexLess(a[1..], b[1..])
  }

  lemma {:induction false} LexIrreflexive(a: string)
    ensures !LexLess(a, a)
    decreases |a|
  {
    if a != [] {
      LexIrreflexive(a[1..]);
    }
  }

  lemma {:induction false} LexTotal(a: string, b: string)
    requires a != b
    ensures LexLess(a, b) || LexLess(b, a)
    decreases |a|
  {
    if a != [] && b != [] && a[0] == b[0] {
      assert a == [a[0]] + a[1..] && b == [b[0]] + b[1..];
      LexTotal(a[1..], b[1..]);
    }
  }

  lemma {:induction false} LexTransitive(a: string, b: string, c: string)
    requires LexLess(a, b) && LexLess(b, c)
    ensures LexLess(a, c)
    decreases |a|
  {
    if a != [] && b != [] && c != [] && a[0] == b[0] && b[0] == c[0] {
      LexTransitive(a[1..], b[1..], c[1..]);
    }
  }

  /** Strictly ascending in Python's string order, as `sorted` leaves distinct names. */
  predicate SortedStrictly(xs: seq<string>) {
    forall i, j :: 0 <= i < j < |xs| ==> LexLess(xs[i], xs[j])
  }

  /** `m` is the smallest name of `s`. */
  predicate LexMin(m: string, s: set<string>) {
    m in s && forall x :: x in s && x != m ==> LexLess(m, x)
  }

  /** A finite set of strings has a least element. */
  lemma {:induction false} LexMinExists(s: set<string>)
    requires s != {}
    ensures exists m :: LexMin(m, s)
    decreases |s|
  {
    var x :| x in s;
    if s == {x} {
      assert LexMin(x, s);
    } else {
      var rest := s - {x};
      LexMinExists(rest);
      var m :| LexMin(m, rest);
      LexTotal(m, x);
      if LexLess(x, m) {
        forall y | y in s && y != x ensures LexLess(x, y) {
          if y != m {
            LexTransitive(x, m, y);
          }
        }
        assert LexMin(x, s);
      } else {
        assert LexMin(m, s);
      }
    }
  }

  /** `sorted(names)`: the names once each, in ascending order. */
  method SortedNames(s: set<string>) returns (xs: seq<string>)
    ensures SortedStrictly(xs)
    ensures forall x :: x in xs <==> x in s
    ensures |xs| == |s|
  {
    xs := [];
    var rest := s;
    while rest != {}
      invariant SortedStrictly(xs)
      invariant forall x :: x in xs <==> x in s && x !in rest
      invariant forall i, y :: 0 <= i < |xs| && y in rest ==> LexLess(xs[i], y)
      invariant rest <= s
      invariant |xs| + |rest| == |s|
      decreases |rest|
    {
      LexMinExists(rest);
      var m :| LexMin(m, rest);
      forall i, y | 0 <= i < |xs| && y in rest - {m}
        ensures LexLess(xs[i], y)
      {
        LexTransitive(xs[i], m, y);
      }
      xs := xs + [m];
      rest := rest - {m};
    }
  }

  /** Strictly descending in Python's string order, as `sorted(..., reverse=True)` leaves
      distinct names. */
  predicate SortedDescending(xs: seq<string>) {
    forall i, j :: 0 <= i < j < |xs| ==> LexLess(xs[j], xs[i])
  }

  /** `sorted(names, reverse=True)`: the names once each, in descending order. */
  method SortedNamesDescending(s: set<string>) returns (xs: seq<string>)
    ensures SortedDescending(xs)
    ensures forall x :: x in xs <==> x in s
    ensures forall i, j :: 0 <= i < j < |xs| ==> xs[i] != xs[j]
  {
    var up := SortedNames(s);
    xs := seq(|up|, i requires 0 <= i < |up| => up[|up| - 1 - i]);
    forall x | x in up
      ensures x in xs
    {
      var i :| 0 <= i < |up| && up[i] == x;
      assert xs[|up| - 1 - i] == x;
    }
    forall i, j | 0 <= i < j < |xs|
      ensures xs[i] != xs[j]
    {
      if xs[i] == xs[j] {
        LexIrreflexive(xs[i]);
      }
    }
  }

  /** A strictly sorted list has no repeats. */
  lemma SortedDistinct(xs: seq<string>)
    requires SortedStrictly(xs)
    ensures forall i, j :: 0 <= i < j < |xs| ==> xs[i] != xs[j]
  {
    forall i, j | 0 <= i < j < |xs| ensures xs[i] != xs[j] {
      if xs[i] == xs[j] {
        LexIrreflexive(xs[i]);
      }
    }
  }
}
