/**
 * String primitives shared by the Python back end and the browser client:
 * the whitespace sets of the two languages, strip/trim, ASCII lower-casing,
 * joining with a separator, splitting on a delimiter, filter and map.
 */
module Text {

  /**
   * The two whitespace sets in play: the characters Python's `str.isspace()`
   * accepts (which `str.strip()` removes), and ECMAScript's WhiteSpace and
   * LineTerminator (which `trim()` removes and `\s` matches). The trimming
   * functions below take the set as a parameter.
   */
  const PySpaceChars: set<char> := {
    '\t', '\n', '\U{B}', '\U{C}', '\r', '\U{1C}', '\U{1D}', '\U{1E}', '\U{1F}', ' ',
    '\U{85}', '\U{A0}', '\U{1680}', '\U{2000}', '\U{2001}', '\U{2002}', '\U{2003}',
    '\U{2004}', '\U{2005}', '\U{2006}', '\U{2007}', '\U{2008}', '\U{2009}', '\U{200A}',
    '\U{2028}', '\U{2029}', '\U{202F}', '\U{205F}', '\U{3000}'
  }

  const JsSpaceChars: set<char> := {
    '\t', '\n', '\U{B}', '\U{C}', '\r', ' ',
    '\U{A0}', '\U{1680}', '\U{2000}', '\U{2001}', '\U{2002}', '\U{2003}',
    '\U{2004}', '\U{2005}', '\U{2006}', '\U{2007}', '\U{2008}', '\U{2009}', '\U{200A}',
    '\U{2028}', '\U{2029}', '\U{202F}', '\U{205F}', '\U{3000}', '\U{FEFF}'
  }

  /** Every character of `s` is in `ws`. */
  predicate AllSpace(ws: set<char>, s: string) {
    forall k :: 0 <= k < |s| ==> s[k] in ws
  }

  /** End of the run of characters of `ws` that starts at `i`. */
  function RunEnd(ws: set<char>, s: string, i: nat): (j: nat)
    requires i <= |s|
    ensures i <= j <= |s|
    ensures forall k :: i <= k < j ==> s[k] in ws
    ensures j < |s| ==> s[j] !in ws
    decreases |s| - i
  {
    if i < |s| && s[i] in ws then RunEnd(ws, s, i + 1) else i
  }

  /** Start of the run of characters of `ws` that ends at `j`, looking no further left than `lo`. */
  function RunStart(ws: set<char>, s: string, lo: nat, j: nat): (p: nat)
    requires lo <= j <= |s|
    ensures lo <= p <= j
    ensures forall k :: p <= k < j ==> s[k] in ws
    ensures p > lo ==> s[p - 1] !in ws
    decreases j
  {
    if j > lo && s[j - 1] in ws then RunStart(ws, s, lo, j - 1) else j
  }

  /** Length of the longest prefix of `s` made of characters of `ws`. */
  function LeadingRun(ws: set<char>, s: string): (n: nat)
    ensures n <= |s|
    ensures forall k :: 0 <= k < n ==> s[k] in ws
    ensures n < |s| ==> s[n] !in ws
  {
    RunEnd(ws, s, 0)
  }

  /**
   * Removes leading and trailing characters of `ws`: the result is the infix
   * of `s` that starts right after the leading run and is followed only by
   * characters of `ws`; it neither starts nor ends with one, and it is
   * empty exactly when `s` is all `ws`.
   */
  function Strip(ws: set<char>, s: string): (r: string)
    ensures LeadingRun(ws, s) + |r| <= |s| && r == s[LeadingRun(ws, s)..LeadingRun(ws, s) + |r|]
    ensures forall k :: LeadingRun(ws, s) + |r| <= k < |s| ==> s[k] in ws
    ensures r == [] || (r[0] !in ws && r[|r| - 1] !in ws)
    ensures r == [] <==> AllSpace(ws, s)
  {
    var i := LeadingRun(ws, s);
    var p := RunStart(ws, s, i, |s|);
    s[i..p]
  }

  /** Stripping what is already stripped changes nothing. */
  lemma StripIdempotent(ws: set<char>, s: string)
    ensures Strip(ws, Strip(ws, s)) == Strip(ws, s)
  {
    var r := Strip(ws, s);
    if r != [] {
      assert LeadingRun(ws, r) == 0;
      assert RunStart(ws, r, 0, |r|) == |r|;
      assert r[0..|r|] == r;
    }
  }

  /**
   * Python's `str.strip()` with no argument: no whitespace is left at either
   * end, and the result is empty exactly for all-whitespace input.
   */
  function PyStrip(s: string): (r: string)
    ensures r == [] || (r[0] !in PySpaceChars && r[|r| - 1] !in PySpaceChars)
    ensures r == [] <==> AllSpace(PySpaceChars, s)
  {
    Strip(PySpaceChars, s)
  }

  /** JavaScript's `String.prototype.trim()`, with the same two properties over its own whitespace set. */
  function JsTrim(s: string): (r: string)
    ensures r == [] || (r[0] !in JsSpaceChars && r[|r| - 1] !in JsSpaceChars)
    ensures r == [] <==> AllSpace(JsSpaceChars, s)
  {
    Strip(JsSpaceChars, s)
  }

  /** Lower-casing as Python's `str.lower()` and JavaScript's `toLowerCase()` do it on ASCII letters. */
  function LowerChar(c: char): char {
    if 'A' <= c <= 'Z' then (c as int - 'A' as int + 'a' as int) as char else c
  }

  /**
   * Each character lower-cased in place: the length is kept, no ASCII
   * capital is left, and every other character is untouched.
   */
  function Lower(s: string): (r: string)
    ensures |r| == |s|
    ensures forall k :: 0 <= k < |s| ==> r[k] == LowerChar(s[k])
    ensures forall k :: 0 <= k < |r| ==> !('A' <= r[k] <= 'Z')
    ensures forall k :: 0 <= k < |s| && !('A' <= s[k] <= 'Z') ==> r[k] == s[k]
  {
    seq(|s|, k requires 0 <= k < |s| => LowerChar(s[k]))
  }

  predicate EndsWith(s: string, suffix: string) {
    |suffix| <= |s| && s[|s| - |suffix|..] == suffix
  }

  /**
   * Python's `sep.join(parts)` and JavaScript's `parts.join(sep)`: the pieces
   * with one separator between each two neighbours, starting with the first
   * piece and ending with the last.
   */
  function Join(parts: seq<string>, sep: string): (r: string)
    ensures parts == [] ==> r == ""
    ensures parts != [] ==> parts[0] <= r
  {
    if |parts| == 0 then ""
    else if |parts| == 1 then parts[0]
    else
      parts[0] + sep + Join(parts[1..], sep)
  }

  /** The first piece starts the joined string, and more follows it exactly when there are more pieces. */
  lemma JoinStartsWithFirst(parts: seq<string>, sep: string)
    requires parts != [] && sep != []
    ensures parts[0] <= Join(parts, sep)
    ensures |parts| > 1 ==> Join(parts, sep) == parts[0] + sep + Join(parts[1..], sep)
    ensures |parts| > 1 <==> |Join(parts, sep)| > |parts[0]|
  {
  }

  /** With non-empty pieces, the join is empty only for the empty list. */
  lemma JoinEmptyIff(parts: seq<string>, sep: string)
    requires forall p :: p in parts ==> p != []
    ensures Join(parts, sep) == "" <==> parts == []
  {
    if parts != [] {
      assert parts[0] in parts;
    }
  }

  /** A concatenation is all `ws` exactly when both halves are. */
  lemma AllSpaceConcat(ws: set<char>, a: string, b: string)
    ensures AllSpace(ws, a + b) <==> AllSpace(ws, a) && AllSpace(ws, b)
  {
    if AllSpace(ws, a + b) {
      forall k | 0 <= k < |a| ensures a[k] in ws {
        assert (a + b)[k] == a[k];
      }
      forall k | 0 <= k < |b| ensures b[k] in ws {
        assert (a + b)[|a| + k] == b[k];
      }
    }
  }

  /** With a separator made of `ws`, the join is all `ws` exactly when every piece is. */
  lemma {:induction false} JoinAllSpace(ws: set<char>, parts: seq<string>, sep: string)
    requires AllSpace(ws, sep)
    ensures AllSpace(ws, Join(parts, sep)) <==> forall i :: 0 <= i < |parts| ==> AllSpace(ws, parts[i])
  {
    if |parts| > 1 {
      var rest := Join(parts[1..], sep);
      JoinAllSpace(ws, parts[1..], sep);
      AllSpaceConcat(ws, parts[0] + sep, rest);
      AllSpaceConcat(ws, parts[0], sep);
      assert forall i :: 1 <= i < |parts| ==> parts[i] == parts[1..][i - 1];
    }
  }

  /** Position of the first `d` in `s`, or `|s|` when there is none. */
  function IndexOf(s: string, d: char): (k: nat)
    ensures k <= |s|
    ensures forall i :: 0 <= i < k ==> s[i] != d
    ensures k < |s| ==> s[k] == d
  {
    if s == [] || s[0] == d then 0 else 1 + IndexOf(s[1..], d)
  }

  /** The position `IndexOf` finds is the only one with its two properties. */
  lemma IndexOfIsFirst(s: string, d: char, m: nat)
    requires m <= |s|
    requires forall i :: 0 <= i < m ==> s[i] != d
    requires m < |s| ==> s[m] == d
    ensures IndexOf(s, d) == m
  {
  }

  /** When the first piece lacks the separator's first character, that character first occurs right after it. */
  lemma JoinFirstPiece(parts: seq<string>, sep: string)
    requires parts != [] && sep != [] && sep[0] !in parts[0]
    ensures IndexOf(Join(parts, sep), sep[0]) == |parts[0]|
  {
    var j := Join(parts, sep);
    JoinStartsWithFirst(parts, sep);
    assert forall i :: 0 <= i < |parts[0]| ==> j[i] == parts[0][i];
    if |parts| > 1 {
      assert j[|parts[0]|] == sep[0];
    }
    IndexOfIsFirst(j, sep[0], |parts[0]|);
  }

  /**
   * Joining can be undone when the pieces are non-empty and none of them
   * contains the first character of the separator: equal joins come from
   * equal lists.
   */
  lemma {:induction false} JoinInjective(xs: seq<string>, ys: seq<string>, sep: string)
    requires sep != ""
    requires forall p :: p in xs + ys ==> p != [] && sep[0] !in p
    requires Join(xs, sep) == Join(ys, sep)
    ensures xs == ys
    decreases |xs|
  {
    var j := Join(xs, sep);
    assert forall p :: p in xs ==> p in xs + ys;
    assert forall p :: p in ys ==> p in xs + ys;
    JoinEmptyIff(xs, sep);
    JoinEmptyIff(ys, sep);
    if xs != [] {
      var a, b := xs[0], ys[0];
      JoinFirstPiece(xs, sep);
      JoinFirstPiece(ys, sep);
      JoinStartsWithFirst(xs, sep);
      JoinStartsWithFirst(ys, sep);
      assert a == j[..|a|] == b;
      if |xs| > 1 {
        assert Join(xs[1..], sep) == j[|a| + |sep|..] == Join(ys[1..], sep);
        forall p | p in xs[1..] + ys[1..] ensures p != [] && sep[0] !in p {
          assert p in xs + ys;
        }
        JoinInjective(xs[1..], ys[1..], sep);
        assert xs == [a] + xs[1..] && ys == [b] + ys[1..];
      }
    }
  }

  /**
   * JavaScript's `s.split(d)` for a one-character separator: at least one
   * piece, no piece contains `d`, and joining the pieces with `d` gives `s` back.
   */
  function Split(s: string, d: char): (parts: seq<string>)
    ensures |parts| >= 1
    ensures forall i :: 0 <= i < |parts| ==> d !in parts[i]
    ensures Join(parts, [d]) == s
    decreases |s|
  {
    var k := IndexOf(s, d);
    if k == |s| then [s]
    else
      var rest := Split(s[k + 1..], d);
      assert ([s[..k]] + rest)[1..] == rest;
      assert s == s[..k] + [d] + s[k + 1..];
      [s[..k]] + rest
  }

  /**
   * Splitting undoes joining: a non-empty list of pieces none of which
   * contains `d`, joined with `d`, splits back into the same pieces. (The
   * empty list is the exception: it joins to "", which splits into [""].)
   */
  lemma {:induction false} SplitJoin(ps: seq<string>, d: char)
    requires ps != []
    requires forall i :: 0 <= i < |ps| ==> d !in ps[i]
    ensures Split(Join(ps, [d]), d) == ps
    decreases |ps|
  {
    var j := Join(ps, [d]);
    JoinStartsWithFirst(ps, [d]);
    assert forall i :: 0 <= i < |ps[0]| ==> j[i] == ps[0][i];
    if |ps| == 1 {
      IndexOfIsFirst(j, d, |j|);
    } else {
      var rest := Join(ps[1..], [d]);
      assert j == ps[0] + [d] + rest;
      assert j[|ps[0]|] == d;
      IndexOfIsFirst(j, d, |ps[0]|);
      assert j[..|ps[0]|] == ps[0];
      assert j[|ps[0]| + 1..] == rest;
      SplitJoin(ps[1..], d);
      assert ps == [ps[0]] + ps[1..];
    }
  }

  /** `xs` occurs in `ys` in order, possibly with gaps. */
  predicate IsSubsequence<T(==)>(xs: seq<T>, ys: seq<T>)
    decreases |ys|
  {
    xs == [] || (ys != [] && if xs[0] == ys[0] then IsSubsequence(xs[1..], ys[1..]) else IsSubsequence(xs, ys[1..]))
  }

  /**
   * JavaScript's `xs.filter(p)`: keeps, in order, exactly the elements that
   * satisfy `p` (`FilterMultiplicity`: each as often as it occurs in `xs`).
   */
  function Filter<T(==)>(xs: seq<T>, p: T -> bool): (r: seq<T>)
    ensures |r| <= |xs|
    ensures forall i :: 0 <= i < |r| ==> p(r[i]) && r[i] in xs
    ensures forall x :: x in xs && p(x) ==> x in r
    ensures IsSubsequence(r, xs)
  {
    if xs == [] then []
    else if p(xs[0]) then
      var rest := Filter(xs[1..], p);
      assert ([xs[0]] + rest)[1..] == rest;
      [xs[0]] + rest
    else Filter(xs[1..], p)
  }

  /** Filtering on the first element of a non-empty list. */
  lemma FilterHead<T>(xs: seq<T>, p: T -> bool)
    requires xs != []
    ensures Filter(xs, p) == (if p(xs[0]) then [xs[0]] else []) + Filter(xs[1..], p)
  {
  }

  /** The filter keeps every passing element as often as it occurs, and no other element. */
  lemma {:induction false} FilterMultiplicity<T>(xs: seq<T>, p: T -> bool)
    ensures forall x :: multiset(Filter(xs, p))[x] == if p(x) then multiset(xs)[x] else 0
  {
    if xs != [] {
      FilterMultiplicity(xs[1..], p);
      FilterHead(xs, p);
      assert xs == [xs[0]] + xs[1..];
    }
  }

  /** JavaScript's `xs.map(f)`. */
  function Map<T, U>(xs: seq<T>, f: T -> U): (r: seq<U>)
    ensures |r| == |xs|
    ensures forall i :: 0 <= i < |xs| ==> r[i] == f(xs[i])
  {
    seq(|xs|, i requires 0 <= i < |xs| => f(xs[i]))
  }
}
