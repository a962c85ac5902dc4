/**
 * Character classes and the `str` operations the pipeline uses: ASCII `\d` and `\w`,
 * Python's whitespace (`\s`, `str.strip()`), and single-character `str.replace`.
 */
module Chars {

  predicate IsDigit(c: char) { '0' <= c <= '9' }

  predicate IsAsciiLetter(c: char) { 'a' <= c <= 'z' || 'A' <= c <= 'Z' }

  /**
   * Python's whitespace, which `\s` in a `str` pattern, `str.strip()` and `str.isspace()`
   * share: tab to carriage return, the separators U+1C to U+1F, space, U+85, the no-break
   * spaces and the Unicode space separators, line and paragraph separators.
   */
  predicate IsSpace(c: char) {
    || c == ' ' || '\t' <= c <= '\r' || '\U{1C}' <= c <= '\U{1F}'
    || c == '\U{85}' || c == '\U{A0}' || c == '\U{1680}' || '\U{2000}' <= c <= '\U{200A}'
    || c == '\U{2028}' || c == '\U{2029}' || c == '\U{202F}' || c == '\U{205F}' || c == '\U{3000}'
  }

  /** ASCII `\w`: letters, digits and underscore. */
  predicate IsWordChar(c: char) { IsAsciiLetter(c) || IsDigit(c) || c == '_' }

  /**
   * A bracketed character class `[...]`: ASCII letters, ASCII digits, Python's whitespace
   * (`\s`) and the listed characters, possibly negated (`[^...]`).
   */
  datatype CharClass = CharClass(negated: bool, letters: bool, digits: bool, spaces: bool, extra: seq<char>)

  predicate In(k: CharClass, c: char)
  {
    ((k.letters && IsAsciiLetter(c)) || (k.digits && IsDigit(c)) || (k.spaces && IsSpace(c)) || c in k.extra)
      != k.negated
  }

  /** `\d` */
  const Digits := CharClass(false, false, true, false, [])
  /** `\s` */
  const Spaces := CharClass(false, false, false, true, [])
  /** `[a-zA-Z]` */
  const Letters := CharClass(false, true, false, false, [])

  /** `\b` at position `i`: a word character on exactly one side. */
  predicate Boundary(s: string, i: nat)
  {
    (0 < i <= |s| && IsWordChar(s[i - 1])) != (i < |s| && IsWordChar(s[i]))
  }

  /** Length of the longest run of characters of class `k` that starts at `p`. */
  function Span(s: string, p: nat, k: CharClass): (n: nat)
    requires p <= |s|
    ensures p + n <= |s|
    decreases |s| - p
  {
    if p == |s| || !In(k, s[p]) then 0 else 1 + Span(s, p + 1, k)
  }

  /** The run `Span` measures is all in the class and cannot be extended. */
  lemma {:induction false} SpanMaximal(s: string, p: nat, k: CharClass)
    requires p <= |s|
    ensures forall i :: p <= i < p + Span(s, p, k) ==> In(k, s[i])
    ensures p + Span(s, p, k) == |s| || !In(k, s[p + Span(s, p, k)])
    decreases |s| - p
  {
    if p < |s| && In(k, s[p]) {
      SpanMaximal(s, p + 1, k);
    }
  }

  /** A run that ends where the class stops matching is the whole span. */
  lemma SpanExact(s: string, p: nat, q: nat, k: CharClass)
    requires p <= q <= |s|
    requires forall i :: p <= i < q ==> In(k, s[i])
    requires q == |s| || !In(k, s[q])
    ensures Span(s, p, k) == q - p
    decreases q - p
  {
    if p < q {
      SpanExact(s, p + 1, q, k);
    }
  }

  /** Every character in [lo, hi) belongs to class `k`. */
  ghost predicate AllIn(s: string, lo: nat, hi: nat, k: CharClass)
    requires lo <= hi <= |s|
  {
    forall i :: lo <= i < hi ==> In(k, s[i])
  }

  /** A character outside the class does not occur in a slice that is all in the class. */
  lemma AllInAvoids(s: string, lo: nat, hi: nat, k: CharClass, x: char)
    requires lo <= hi <= |s| && AllIn(s, lo, hi, k) && !In(k, x)
    ensures x !in s[lo..hi]
  {
  }

  /** A run of class characters from `p` to `q` is covered by `Span`. */
  lemma {:induction false} SpanCovers(s: string, p: nat, q: nat, k: CharClass)
    requires p <= q <= |s| && AllIn(s, p, q, k)
    ensures Span(s, p, k) >= q - p
    decreases q - p
  {
    if p < q {
      SpanCovers(s, p + 1, q, k);
    }
  }

  /** `s[p:].startswith(w)`. */
  predicate StartsWith(s: string, p: nat, w: string)
    decreases |w|
  {
    w == [] || (p < |s| && s[p] == w[0] && StartsWith(s, p + 1, w[1..]))
  }

  lemma {:induction false} StartsWithSlice(s: string, p: nat, w: string)
    requires p <= |s|
    ensures StartsWith(s, p, w) <==> p + |w| <= |s| && s[p..p + |w|] == w
    decreases |w|
  {
    if w != [] && p < |s| {
      StartsWithSlice(s, p + 1, w[1..]);
      if p + |w| <= |s| {
        var x := s[p..p + |w|];
        assert x == [s[p]] + s[p + 1..p + |w|];
        assert w == [w[0]] + w[1..];
        if x == w {
          assert x[0] == w[0] && x[1..] == w[1..];
        }
      }
    }
  }

  /** `s.lstrip()`: removes Python's whitespace (`IsSpace`). */
  function StripStart(s: string): (r: string)
    ensures |r| <= |s| && r == s[|s| - |r|..]
  {
    s[Span(s, 0, Spaces)..]
  }

  /** `s.rstrip()`: removes Python's whitespace (`IsSpace`). */
  function StripEnd(s: string): (r: string)
    ensures |r| <= |s| && r == s[..|r|]
  {
    if s == [] || !IsSpace(s[|s| - 1]) then s else StripEnd(s[..|s| - 1])
  }

  /** `s.strip()`: removes Python's whitespace (`IsSpace`). */
  function Strip(s: string): (r: string)
    ensures |r| <= |s|
  {
    StripEnd(StripStart(s))
  }

  lemma {:induction false} StripEndFacts(s: string)
    ensures var r := StripEnd(s);
      && (r == [] || !IsSpace(r[|r| - 1]))
      && forall i :: |r| <= i < |s| ==> IsSpace(s[i])
  {
    if s != [] && IsSpace(s[|s| - 1]) {
      StripEndFacts(s[..|s| - 1]);
    }
  }

  /**
   * `strip()` removes exactly the leading and trailing whitespace: the result is empty
   * precisely when the text is all whitespace, it neither starts nor ends with whitespace,
   * and text without whitespace is returned unchanged.
   */
  lemma StripFacts(s: string)
    ensures var r := Strip(s);
      && (r == [] || (!IsSpace(r[0]) && !IsSpace(r[|r| - 1])))
      && (r == [] <==> forall i :: 0 <= i < |s| ==> IsSpace(s[i]))
      && ((forall i :: 0 <= i < |s| ==> !IsSpace(s[i])) ==> r == s)
  {
    var n := Span(s, 0, Spaces);
    SpanMaximal(s, 0, Spaces);
    var t := StripStart(s);
    StripEndFacts(t);
    var r := StripEnd(t);
    assert forall i :: n <= i < |s| ==> s[i] == t[i - n];
    if r != [] {
      assert r[0] == t[0];
    }
    if forall i :: 0 <= i < |s| ==> !IsSpace(s[i]) {
      assert n == 0 && t == s;
    }
  }

  /** `s.replace(c, w)` for a single-character `c`. */
  function Replace(s: string, c: char, w: string): (r: string)
    ensures s == [] ==> r == []
  {
    if s == [] then []
    else (if s[0] == c then w else [s[0]]) + Replace(s[1..], c, w)
  }

  /** A character that `w` lacks and that is replaced or absent from `s` is absent from the result. */
  lemma {:induction false} ReplaceAvoids(s: string, c: char, w: string, x: char)
    requires x !in w && (x == c || x !in s)
    ensures x !in Replace(s, c, w)
  {
    if s != [] {
      ReplaceAvoids(s[1..], c, w, x);
      assert s[0] in s;
    }
  }

  /** Replacing a character that does not occur changes nothing. */
  lemma {:induction false} ReplaceAbsent(s: string, c: char, w: string)
    requires c !in s
    ensures Replace(s, c, w) == s
  {
    if s != [] {
      ReplaceAbsent(s[1..], c, w);
      assert s[0] in s;
      assert s == [s[0]] + s[1..];
    }
  }

  lemma {:induction false} ReplaceAppend(a: string, b: string, c: char, w: string)
    ensures Replace(a + b, c, w) == Replace(a, c, w) + Replace(b, c, w)
  {
    if a != [] {
      assert (a + b)[0] == a[0] && (a + b)[1..] == a[1..] + b;
      ReplaceAppend(a[1..], b, c, w);
    } else {
      assert a + b == b;
    }
  }
}
