/**
 * The few pieces of Python's string, integer and path behaviour that the
 * modelled code relies on: str.strip, str.startswith, str.split with a
 * limit, str.replace, the `in` operator on strings, int() of a string,
 * '%d' formatting, slicing and indexing with Python's conventions, and
 * os.path.splitext as posixpath implements it.
 */
module PyText {
  import opened Wrappers

  /**
   * The Python exceptions the modelled code can raise. OSError stands for
   * what a failed open() raises (FileNotFoundError, PermissionError and the
   * other subclasses of OSError).
   */
  datatype PyError = IndexError | KeyError(key: string) | ValueError | AssertionError | AttributeError | OSError

  // ---------------------------------------------------------------- whitespace

  /** str.isspace() of a single character. */
  predicate IsSpace(c: char) {
    c == ' ' || ('\t' <= c <= '\r') || ('\U{1C}' <= c <= '\U{1F}')
    || c == '\U{85}' || c == '\U{A0}' || c == '\U{1680}'
    || ('\U{2000}' <= c <= '\U{200A}') || c == '\U{2028}' || c == '\U{2029}'
    || c == '\U{202F}' || c == '\U{205F}' || c == '\U{3000}'
  }

  /** str.lstrip(): drops the leading whitespace and nothing else. */
  function TrimLeft(s: string): (r: string)
    ensures |r| <= |s| && r == s[|s| - |r|..]
    ensures forall i :: 0 <= i < |s| - |r| ==> IsSpace(s[i])
    ensures r == [] || !IsSpace(r[0])
    decreases |s|
  {
    if s != [] && IsSpace(s[0]) then TrimLeft(s[1..]) else s
  }

  /** str.rstrip(): drops the trailing whitespace and nothing else. */
  function TrimRight(s: string): (r: string)
    ensures |r| <= |s| && r == s[..|r|]
    ensures forall i :: |r| <= i < |s| ==> IsSpace(s[i])
    ensures r == [] || !IsSpace(r[|r| - 1])
    decreases |s|
  {
    if s != [] && IsSpace(s[|s| - 1]) then TrimRight(s[..|s| - 1]) else s
  }

  /** str.strip() with no argument. */
  function Strip(s: string): (r: string)
    ensures |r| <= |s|
    ensures r == [] || (!IsSpace(r[0]) && !IsSpace(r[|r| - 1]))
    ensures r == [] <==> forall i :: 0 <= i < |s| ==> IsSpace(s[i])
  {
    TrimRight(TrimLeft(s))
  }

  /** A text whose ends are not whitespace is its own strip. */
  lemma StripUntrimmed(t: string)
    requires t != [] && !IsSpace(t[0]) && !IsSpace(t[|t| - 1])
    ensures Strip(t) == t
  {
    assert TrimLeft(t) == t;
  }

  /** Leading whitespace padding is removed by Strip and nothing more. */
  lemma StripPadded(pad: string, t: string)
    requires forall i :: 0 <= i < |pad| ==> IsSpace(pad[i])
    requires t != [] && !IsSpace(t[0]) && !IsSpace(t[|t| - 1])
    ensures Strip(pad + t) == t
    decreases |pad|
  {
    if pad == [] {
      assert pad + t == t;
      StripUntrimmed(t);
    } else {
      assert (pad + t)[1..] == pad[1..] + t;
      StripPadded(pad[1..], t);
    }
  }

  // ---------------------------------------------------------------- prefixes, slices, indexing

  /** str.startswith(p). */
  predicate StartsWith(s: string, p: string) {
    |p| <= |s| && s[..|p|] == p
  }

  /** The slice s[n:], which is empty when n is past the end. */
  function SliceFrom(s: string, n: nat): (r: string)
    ensures n <= |s| ==> s == s[..n] + r
    ensures n >= |s| ==> r == []
  {
    if n <= |s| then s[n..] else []
  }

  /** xs[i] with Python's indexing: a negative index counts from the end. */
  function PyIndex<T>(xs: seq<T>, i: int): (r: Option<T>)
    ensures r.Some? <==> -|xs| <= i < |xs|
    ensures 0 <= i < |xs| ==> r == Some(xs[i])
    ensures -|xs| <= i < 0 ==> r == Some(xs[|xs| + i])
  {
    if 0 <= i < |xs| then Some(xs[i])
    else if -|xs| <= i < 0 then Some(xs[|xs| + i])
    else None
  }

  // ---------------------------------------------------------------- searching and splitting

  /** str.find(c) for a single character: -1 when absent. */
  function IndexOf(s: string, c: char): (r: int)
    ensures -1 <= r < |s|
    ensures r == -1 <==> c !in s
    ensures 0 <= r ==> s[r] == c && c !in s[..r]
    decreases |s|
  {
    if s == [] then -1
    else if s[0] == c then 0
    else
      var k := IndexOf(s[1..], c);
      assert s == [s[0]] + s[1..];
      if k == -1 then -1
      else
        assert s[..k + 1] == [s[0]] + s[1..][..k];
        k + 1
  }

  /** str.rfind(c) for a single character: -1 when absent. */
  function LastIndexOf(s: string, c: char): (r: int)
    ensures -1 <= r < |s|
    ensures r >= 0 ==> s[r] == c
    ensures forall k :: r < k < |s| ==> s[k] != c
    decreases |s|
  {
    if s == [] then -1
    else if s[|s| - 1] == c then |s| - 1
    else LastIndexOf(s[..|s| - 1], c)
  }

  /** s.split(c)[0]: the text before the first c, or all of s when there is none. */
  function BeforeFirst(s: string, c: char): (r: string)
    ensures |r| <= |s| && r == s[..|r|]
    ensures c !in r
    ensures |r| < |s| ==> s[|r|] == c
  {
    var k := IndexOf(s, c);
    if k == -1 then s else s[..k]
  }

  /** The first c of `a + [c] + b` is the one after a, when a holds none. */
  lemma {:induction false} IndexOfAfter(a: string, c: char, b: string)
    requires c !in a
    ensures IndexOf(a + [c] + b, c) == |a|
    decreases |a|
  {
    if a != [] {
      assert (a + [c] + b)[1..] == a[1..] + [c] + b;
      IndexOfAfter(a[1..], c, b);
    }
  }

  /** Splitting at a character that the front part does not hold gives that front part and the rest back. */
  lemma SplitAtFirst(a: string, c: char, b: string)
    requires c !in a
    ensures BeforeFirst(a + [c] + b, c) == a
    ensures SplitFirst(a + [c] + b, c) == Some((a, b))
  {
    var s := a + [c] + b;
    IndexOfAfter(a, c, b);
    assert s[..|a|] == a;
    assert s[|a| + 1..] == b;
  }

  /** s.split(c, 1) when it gives two parts; None when c does not occur. */
  function SplitFirst(s: string, c: char): (r: Option<(string, string)>)
    ensures r.None? <==> c !in s
    ensures r.Some? ==> s == r.value.0 + [c] + r.value.1 && c !in r.value.0
  {
    var k := IndexOf(s, c);
    if k == -1 then None
    else
      assert s == s[..k] + [c] + s[k + 1..];
      Some((s[..k], s[k + 1..]))
  }

  /** The `p in s` test on strings. */
  predicate Contains(s: string, p: string)
    decreases |s|
  {
    StartsWith(s, p) || (s != [] && Contains(s[1..], p))
  }

  /** An occurrence survives putting text in front of it. */
  lemma {:induction false} ContainsAfterPrefix(x: string, s: string, p: string)
    requires Contains(s, p)
    ensures Contains(x + s, p)
    decreases |x|
  {
    if x != [] {
      assert (x + s)[1..] == x[1..] + s;
      ContainsAfterPrefix(x[1..], s, p);
    } else {
      assert x + s == s;
    }
  }

  /** An occurrence survives putting text after it. */
  lemma {:induction false} ContainsBeforeSuffix(s: string, y: string, p: string)
    requires Contains(s, p)
    ensures Contains(s + y, p)
    decreases |s|
  {
    if StartsWith(s, p) {
      assert (s + y)[..|p|] == s[..|p|];
    } else {
      assert (s + y)[1..] == s[1..] + y;
      ContainsBeforeSuffix(s[1..], y, p);
    }
  }

  /** str.replace(p, r): every non-overlapping occurrence, scanning left to right; a pattern that does not occur changes nothing. */
  function ReplaceAll(s: string, p: string, r: string): (t: string)
    requires p != []
    ensures !Contains(s, p) ==> t == s
    decreases |s|
  {
    if s == [] then []
    else if StartsWith(s, p) then r + ReplaceAll(s[|p|..], p, r)
    else
      assert s == [s[0]] + s[1..];
      [s[0]] + ReplaceAll(s[1..], p, r)
  }

  /** Text in front that holds no character starting the pattern is kept as it is, and the rest is replaced. */
  lemma {:induction false} ReplaceAfterFree(a: string, t: string, p: string, r: string)
    requires p != [] && p[0] !in a
    ensures ReplaceAll(a + t, p, r) == a + ReplaceAll(t, p, r)
    decreases |a|
  {
    if a != [] {
      assert (a + t)[0] == a[0] != p[0];
      assert !StartsWith(a + t, p) by {
        if |p| <= |a + t| { assert (a + t)[..|p|][0] == a[0]; }
      }
      assert (a + t)[1..] == a[1..] + t;
      ReplaceAfterFree(a[1..], t, p, r);
      assert a == [a[0]] + a[1..];
    } else {
      assert a + t == t;
    }
  }

  /** Text in front at none of whose positions an occurrence of the pattern starts is kept as it is, and the rest is replaced. */
  lemma {:induction false} ReplaceAfterUnmatched(a: string, t: string, p: string, r: string)
    requires p != []
    requires forall k :: 0 <= k < |a| ==> !StartsWith((a + t)[k..], p)
    ensures ReplaceAll(a + t, p, r) == a + ReplaceAll(t, p, r)
    decreases |a|
  {
    if a != [] {
      assert (a + t)[0..] == a + t;
      assert (a + t)[1..] == a[1..] + t;
      forall k | 0 <= k < |a[1..]|
        ensures !StartsWith((a[1..] + t)[k..], p)
      {
        assert (a[1..] + t)[k..] == (a + t)[k + 1..];
      }
      ReplaceAfterUnmatched(a[1..], t, p, r);
      assert a == [a[0]] + a[1..];
    } else {
      assert a + t == t;
    }
  }

  /** Text that starts with the pattern: the replacement takes its place and what follows is replaced in turn. */
  lemma ReplaceAtFront(p: string, t: string, r: string)
    requires p != []
    ensures ReplaceAll(p + t, p, r) == r + ReplaceAll(t, p, r)
  {
    assert (p + t)[..|p|] == p;
    assert (p + t)[|p|..] == t;
  }

  /** When p occurs in s, whatever the replacement contains shows up in the result. */
  lemma {:induction false} ReplaceIntroduces(s: string, p: string, r: string, q: string)
    requires p != [] && Contains(s, p) && Contains(r, q)
    ensures Contains(ReplaceAll(s, p, r), q)
    decreases |s|
  {
    if StartsWith(s, p) {
      ContainsBeforeSuffix(r, ReplaceAll(s[|p|..], p, r), q);
    } else {
      ReplaceIntroduces(s[1..], p, r, q);
      ContainsAfterPrefix([s[0]], ReplaceAll(s[1..], p, r), q);
    }
  }

  // ---------------------------------------------------------------- integers

  predicate IsDigit(c: char) {
    '0' <= c <= '9'
  }

  predicate AllDigits(s: string) {
    forall i :: 0 <= i < |s| ==> IsDigit(s[i])
  }

  /** The value of a string of decimal digits. */
  function DigitsValue(s: string): nat
    requires AllDigits(s)
    decreases |s|
  {
    if s == [] then 0
    else DigitsValue(s[..|s| - 1]) * 10 + (s[|s| - 1] as int - '0' as int)
  }

  /** int(s) for a decimal string: surrounding whitespace, an optional sign, then digits. */
  function PyInt(s: string): (r: Option<int>)
    ensures r.Some? ==> Strip(s) != [] && forall i :: 0 < i < |Strip(s)| ==> IsDigit(Strip(s)[i])
    ensures r.Some? && r.value < 0 ==> Strip(s)[0] == '-'
    ensures r.Some? && AllDigits(Strip(s)) ==> r == Some(DigitsValue(Strip(s)))
  {
    var t := Strip(s);
    if |t| > 1 && (t[0] == '-' || t[0] == '+') && AllDigits(t[1..]) then
      Some(if t[0] == '-' then -(DigitsValue(t[1..]) as int) else DigitsValue(t[1..]))
    else if |t| > 0 && AllDigits(t) then Some(DigitsValue(t))
    else None
  }

  /**
   * int() accepts exactly a stripped text that is a digit, or a sign with
   * at least one digit after it, followed by digits only; `-` negates the
   * digits' value and `+` keeps it.
   */
  lemma PyIntAccepts(s: string)
    ensures var t := Strip(s);
            PyInt(s).Some? <==> |t| > 0 && (IsDigit(t[0]) || (|t| > 1 && (t[0] == '-' || t[0] == '+'))) && AllDigits(t[1..])
    ensures var t := Strip(s); PyInt(s).Some? && t[0] == '-' ==> PyInt(s).value == -(DigitsValue(t[1..]) as int)
    ensures var t := Strip(s); PyInt(s).Some? && t[0] == '+' ==> PyInt(s).value == DigitsValue(t[1..])
    ensures var t := Strip(s); PyInt(s).Some? && IsDigit(t[0]) ==> PyInt(s).value == DigitsValue(t)
  {
    var t := Strip(s);
    if |t| > 0 && IsDigit(t[0]) && AllDigits(t[1..]) {
      assert forall i :: 1 <= i < |t| ==> t[i] == t[1..][i - 1];
      assert AllDigits(t);
    }
    if |t| > 0 && AllDigits(t) {
      assert forall i :: 0 <= i < |t[1..]| ==> t[1..][i] == t[i + 1];
      assert AllDigits(t[1..]);
    }
  }

  function DigitChar(d: nat): (c: char)
    requires d < 10
    ensures IsDigit(c) && c as int - '0' as int == d
  {
    ('0' as int + d) as char
  }

  /** '%d' of a natural number: its decimal digits with no leading zero. */
  function NatText(n: nat): (r: string)
    ensures |r| > 0 && AllDigits(r) && DigitsValue(r) == n
    ensures |r| > 1 ==> r[0] != '0'
    decreases n
  {
    if n < 10 then [DigitChar(n)]
    else
      var t := NatText(n / 10) + [DigitChar(n % 10)];
      assert t[..|t| - 1] == NatText(n / 10);
      t
  }

  /** '%d' of an integer. */
  function DecimalText(n: int): (r: string)
    ensures r != [] && (r[0] == '-' <==> n < 0)
    ensures forall i :: 0 <= i < |r| ==> IsDigit(r[i]) || (i == 0 && r[i] == '-')
  {
    if n < 0 then "-" + NatText(-n) else NatText(n)
  }

  /** int() reads back what '%d' writes. */
  lemma PyIntDecimalText(n: int)
    ensures PyInt(DecimalText(n)) == Some(n)
  {
    var t := DecimalText(n);
    StripUntrimmed(t);
    if n < 0 {
      assert t[1..] == NatText(-n);
    }
  }

  /** '%d' writes different integers differently. */
  lemma DecimalTextInjective(i: int, j: int)
    requires DecimalText(i) == DecimalText(j)
    ensures i == j
  {
    PyIntDecimalText(i);
    PyIntDecimalText(j);
  }

  /** Right-justification in a field of the given width, as '%3d' pads. */
  function PadLeft(s: string, width: nat): (r: string)
    ensures |r| == if |s| < width then width else |s|
    ensures r == r[..|r| - |s|] + s
    ensures forall i :: 0 <= i < |r| - |s| ==> r[i] == ' '
  {
    if |s| < width then seq(width - |s|, _ => ' ') + s else s
  }

  /** '%2.2d' of a natural number: at least two digits, zero-filled. */
  function TwoDigits(n: nat): (r: string)
    ensures |r| >= 2 && AllDigits(r) && DigitsValue(r) == n
  {
    var t := NatText(n);
    if |t| < 2 then
      var z := "0" + t;
      assert z[..|z| - 1] == "0";
      z
    else t
  }

  // ---------------------------------------------------------------- paths

  /** Some character of p[lo..hi] is not a dot. */
  predicate HasNonDot(p: string, lo: int, hi: int)
    requires 0 <= lo && hi <= |p|
  {
    exists k :: lo <= k < hi && p[k] != '.'
  }

  /**
   * os.path.splitext on POSIX: the extension starts at the last dot of the
   * final path component, unless that component has only dots before it.
   */
  function Splitext(p: string): (r: (string, string))
    ensures r.0 + r.1 == p
    ensures r.1 == [] || (r.1[0] == '.' && '.' !in r.1[1..] && '/' !in r.1)
  {
    var sep := LastIndexOf(p, '/');
    var dot := LastIndexOf(p, '.');
    if dot > sep && HasNonDot(p, sep + 1, dot) then
      assert p == p[..dot] + p[dot..];
      assert forall k :: 1 <= k < |p[dot..]| ==> p[dot..][k] == p[dot + k];
      (p[..dot], p[dot..])
    else (p, [])
  }

  /** os.path.basename on POSIX: the text after the last slash. */
  function Basename(p: string): (r: string)
    ensures forall i :: 0 <= i < |r| ==> r[i] != '/'
    ensures |r| <= |p| && r == p[|p| - |r|..]
  {
    var start := LastIndexOf(p, '/') + 1;
    assert forall i :: 0 <= i < |p| - start ==> p[start..][i] == p[start + i];
    p[start..]
  }

  /** The base name of `dir/name` is name, when name has no slash. */
  lemma BasenameAfterLastSlash(dir: string, name: string)
    requires '/' !in name
    ensures Basename(dir + "/" + name) == name
  {
    var p := dir + "/" + name;
    assert p[|dir|] == '/';
    assert forall k :: |dir| < k < |p| ==> p[k] == name[k - |dir| - 1];
    assert LastIndexOf(p, '/') == |dir|;
    assert p[|dir| + 1..] == name;
  }

  /** splitext takes the extension off a name that has no slash and starts with something other than a dot. */
  lemma SplitextExtension(stem: string, ext: string)
    requires '/' !in stem && stem != [] && stem[0] != '.'
    requires '.' !in ext && '/' !in ext
    ensures Splitext(stem + "." + ext) == (stem, "." + ext)
  {
    var p := stem + "." + ext;
    assert forall k :: 0 <= k < |p| ==> p[k] != '/';
    assert LastIndexOf(p, '/') == -1;
    assert p[|stem|] == '.';
    assert forall k :: |stem| < k < |p| ==> p[k] == ext[k - |stem| - 1];
    assert LastIndexOf(p, '.') == |stem|;
    assert HasNonDot(p, 0, |stem|) by { assert p[0] != '.'; }
    assert p[..|stem|] == stem;
    assert p[|stem|..] == "." + ext;
  }
}
