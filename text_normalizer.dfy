/**
 * `TextNormalizer` of app/voice_pipeline.py: three `re.sub` passes that make emails, URLs
 * and phone numbers speakable, and `normalize_text`, which runs the enabled ones in order.
 *
 * Each pattern is matched by a hand scanner that follows Python's backtracking order
 * for that pattern (ASCII `\d` and `\w`, Python's `\s`); `re.sub` is modelled once, over any
 * anchored matcher, and each callback (`replace_email`, `replace_url`, `replace_phone`)
 * is a function of the match's groups.
 */
module TextNormalizer {
  import opened Wrappers
  import opened Chars

  // ---------------------------------------------------------------------------------
  // re.sub
  // ---------------------------------------------------------------------------------

  /** What the callback puts in place of the match that starts here and ends at `end`. */
  datatype Edit = Edit(end: nat, text: string)

  /** A match found at `q` is non-empty and ends within a text of length `n`. */
  ghost predicate Anchored(f: nat -> Option<Edit>, n: nat)
  {
    forall q: nat :: q <= n && f(q).Some? ==> q < f(q).value.end <= n
  }

  /**
   * `re.sub(pattern, callback, s)` from position `p` on: where the pattern matches, the
   * callback's text replaces the match and the scan goes on after it; elsewhere the
   * character is copied.
   */
  function SubFrom(f: nat -> Option<Edit>, s: string, p: nat): string
    requires p <= |s| && Anchored(f, |s|)
    decreases |s| - p
  {
    if p == |s| then []
    else match f(p)
      case Some(e) => e.text + SubFrom(f, s, e.end)
      case None => [s[p]] + SubFrom(f, s, p + 1)
  }

  /** Text in which the pattern matches nowhere is copied unchanged up to the next match. */
  lemma {:induction false} SubCopies(f: nat -> Option<Edit>, s: string, p: nat, r: nat)
    requires p <= r <= |s| && Anchored(f, |s|)
    requires forall q: nat :: p <= q < r ==> f(q).None?
    ensures SubFrom(f, s, p) == s[p..r] + SubFrom(f, s, r)
    decreases r - p
  {
    if p < r {
      SubCopies(f, s, p + 1, r);
      SubCopiesOne(f, s, p);
      ConsSlice(s, p, r, SubFrom(f, s, r));
    }
  }

  /** Where the pattern does not match, one character is copied. */
  lemma SubCopiesOne(f: nat -> Option<Edit>, s: string, p: nat)
    requires p < |s| && Anchored(f, |s|) && f(p).None?
    ensures SubFrom(f, s, p) == [s[p]] + SubFrom(f, s, p + 1)
  {
  }

  lemma ConsSlice(s: string, p: nat, r: nat, x: string)
    requires p < r <= |s|
    ensures [s[p]] + (s[p + 1..r] + x) == s[p..r] + x
  {
    assert s[p..r] == [s[p]] + s[p + 1..r];
  }

  /** Text in which the pattern matches nowhere comes back unchanged. */
  lemma SubUnmatched(f: nat -> Option<Edit>, s: string)
    requires Anchored(f, |s|)
    requires forall q: nat :: q < |s| ==> f(q).None?
    ensures SubFrom(f, s, 0) == s
  {
    SubCopies(f, s, 0, |s|);
  }

  // ---------------------------------------------------------------------------------
  // The domain's final `\.[a-zA-Z]{2,}`, shared by the email and the URL pattern
  // ---------------------------------------------------------------------------------

  /**
   * A `.` at `j` followed by two or more letters and, when `bounded`, by `\b` after the
   * longest such run (the only run length at which a following `\b` can hold).
   */
  predicate TldAt(s: string, j: nat, bounded: bool)
    requires j < |s|
  {
    s[j] == '.' && Span(s, j + 1, Letters) >= 2 && (bounded ==> Boundary(s, j + 1 + Span(s, j + 1, Letters)))
  }

  /**
   * The greedy `[...]+` before `\.` gives back one character at a time: the dot chosen is
   * the rightmost one in [lo, hi) at which the rest of the domain matches.
   */
  function LastTld(s: string, lo: nat, hi: nat, bounded: bool): (r: Option<nat>)
    requires hi <= |s|
    ensures r.Some? ==> lo <= r.value < hi && TldAt(s, r.value, bounded)
    decreases hi
  {
    if hi <= lo then None
    else if TldAt(s, hi - 1, bounded) then Some(hi - 1)
    else LastTld(s, lo, hi - 1, bounded)
  }

  /** No eligible dot is passed over, so the dot found is the rightmost eligible one. */
  lemma {:induction false} LastTldFinds(s: string, lo: nat, hi: nat, bounded: bool, j: nat)
    requires hi <= |s| && lo <= j < hi && TldAt(s, j, bounded)
    ensures LastTld(s, lo, hi, bounded).Some? && LastTld(s, lo, hi, bounded).value >= j
    decreases hi
  {
    if !TldAt(s, hi - 1, bounded) {
      LastTldFinds(s, lo, hi - 1, bounded, j);
    }
  }

  /** Letters from `dot + 1` to `end` followed by `\b` are exactly the longest run of letters there. */
  lemma TldEnd(s: string, dot: nat, end: nat)
    requires dot + 1 < end <= |s| && AllIn(s, dot + 1, end, Letters) && Boundary(s, end)
    ensures Span(s, dot + 1, Letters) == end - dot - 1
  {
    assert In(Letters, s[end - 1]);
    SpanExact(s, dot + 1, end, Letters);
  }

  // ---------------------------------------------------------------------------------
  // Emails:  \b([a-zA-Z0-9._-]+)@([a-zA-Z0-9._-]+\.[a-zA-Z]{2,})\b
  // ---------------------------------------------------------------------------------

  /** `[a-zA-Z0-9._-]` */
  const EmailChars := CharClass(false, true, true, false, "._-")

  /** An email match: the `@` at `at`, the dot before the top-level domain at `dot`, the end. */
  datatype EmailMatch = EmailMatch(at: nat, dot: nat, end: nat)

  /** The email pattern matches [p, m.end), split at `m.at` and `m.dot` (regex membership). */
  ghost predicate EmailShape(s: string, p: nat, m: EmailMatch)
  {
    p < m.at && m.at + 1 < m.dot && m.dot + 2 < m.end <= |s|
    && Boundary(s, p) && AllIn(s, p, m.at, EmailChars) && s[m.at] == '@'
    && AllIn(s, m.at + 1, m.dot, EmailChars) && s[m.dot] == '.'
    && AllIn(s, m.dot + 1, m.end, Letters) && Boundary(s, m.end)
  }

  /** The email match that Python's backtracking finds at `p`, if any. */
  function EmailAt(s: string, p: nat): (r: Option<EmailMatch>)
    requires p <= |s|
    ensures r.Some? ==> p < r.value.at < r.value.dot < r.value.end <= |s|
  {
    if !Boundary(s, p) then None
    else
      var at := p + Span(s, p, EmailChars);
      if at == p || at == |s| || s[at] != '@' then None
      else EmailDomain(s, at)
  }

  /** The domain group after the `@` at `at`: the rightmost dot that a top-level domain follows. */
  function EmailDomain(s: string, at: nat): (r: Option<EmailMatch>)
    requires at < |s|
    ensures r.Some? ==> r.value.at == at < r.value.dot < r.value.end <= |s|
  {
    match LastTld(s, at + 2, at + 1 + Span(s, at + 1, EmailChars), true)
    case None => None
    case Some(dot) => Some(EmailMatch(at, dot, dot + 1 + Span(s, dot + 1, Letters)))
  }

  /** The groups of the email the scanner finds at `p`, read off its definition. */
  lemma EmailAtParts(s: string, p: nat)
    requires p <= |s| && EmailAt(s, p).Some?
    ensures var m := EmailAt(s, p).value;
      && Boundary(s, p) && m.at == p + Span(s, p, EmailChars) && s[m.at] == '@'
      && m.dot < m.at + 1 + Span(s, m.at + 1, EmailChars) && TldAt(s, m.dot, true)
      && m.end == m.dot + 1 + Span(s, m.dot + 1, Letters)
  {
  }

  /** What the scanner finds is a match of the email pattern. */
  lemma EmailSound(s: string, p: nat)
    requires p <= |s| && EmailAt(s, p).Some?
    ensures EmailShape(s, p, EmailAt(s, p).value)
  {
    var m := EmailAt(s, p).value;
    EmailAtParts(s, p);
    SpanMaximal(s, p, EmailChars);
    SpanMaximal(s, m.at + 1, EmailChars);
    SpanMaximal(s, m.dot + 1, Letters);
  }

  /** The scanner at `p` given the spans it reads: it finds the `@` and a dot no earlier than `dot`. */
  lemma EmailFinds(s: string, p: nat, m: EmailMatch)
    requires p < m.at < |s| && Boundary(s, p) && p + Span(s, p, EmailChars) == m.at && s[m.at] == '@'
    requires m.at + 2 <= m.dot < m.at + 1 + Span(s, m.at + 1, EmailChars) && TldAt(s, m.dot, true)
    requires m.end == m.dot + 1 + Span(s, m.dot + 1, Letters)
    ensures EmailAt(s, p).Some? && EmailAt(s, p).value.at == m.at && EmailAt(s, p).value.dot >= m.dot
    ensures EmailAt(s, p).value.dot == m.dot ==> EmailAt(s, p).value == m
  {
    assert EmailAt(s, p) == EmailDomain(s, m.at);
    EmailDomainFinds(s, m);
  }

  lemma EmailDomainFinds(s: string, m: EmailMatch)
    requires m.at < |s| && m.at + 2 <= m.dot < m.at + 1 + Span(s, m.at + 1, EmailChars) && TldAt(s, m.dot, true)
    requires m.end == m.dot + 1 + Span(s, m.dot + 1, Letters)
    ensures EmailDomain(s, m.at).Some? && EmailDomain(s, m.at).value.dot >= m.dot
    ensures EmailDomain(s, m.at).value.dot == m.dot ==> EmailDomain(s, m.at).value == m
  {
    LastTldFinds(s, m.at + 2, m.at + 1 + Span(s, m.at + 1, EmailChars), true, m.dot);
  }

  /**
   * Every match of the email pattern at `p` is found, with the same `@`, and the scanner
   * prefers the rightmost possible dot, as the greedy domain group does; a match with that
   * dot is the one found.
   */
  lemma EmailComplete(s: string, p: nat, m: EmailMatch)
    requires EmailShape(s, p, m)
    ensures EmailAt(s, p).Some? && EmailAt(s, p).value.at == m.at && EmailAt(s, p).value.dot >= m.dot
    ensures EmailAt(s, p).value.dot == m.dot ==> EmailAt(s, p).value == m
  {
    SpanExact(s, p, m.at, EmailChars);
    SpanCovers(s, m.at + 1, m.dot + 1, EmailChars);
    TldEnd(s, m.dot, m.end);
    EmailFinds(s, p, m);
  }

  /** How `replace_email` speaks one character of the local part. */
  function LocalWord(c: char): string
  {
    if c == '.' then " dot " else if c == '_' then " underscore " else if c == '-' then " dash " else [c]
  }

  /** The local part spoken character by character. */
  function SpellLocal(local: string): string
  {
    if local == [] then [] else LocalWord(local[0]) + SpellLocal(local[1..])
  }

  /** The three chained `str.replace` calls of `replace_email` on the local part. */
  function SpeakLocal(local: string): string
  {
    Replace(Replace(Replace(local, '.', " dot "), '_', " underscore "), '-', " dash ")
  }

  /** `replace_email`: the spoken local part, ` at `, and the domain with its dots spoken. */
  function SpeakEmail(local: string, domain: string): string
  {
    SpeakLocal(local) + " at " + Replace(domain, '.', " dot ")
  }

  lemma SpeakLocalAppend(a: string, b: string)
    ensures SpeakLocal(a + b) == SpeakLocal(a) + SpeakLocal(b)
  {
    ReplaceAppend(a, b, '.', " dot ");
    var a1 := Replace(a, '.', " dot ");
    var b1 := Replace(b, '.', " dot ");
    ReplaceAppend(a1, b1, '_', " underscore ");
    ReplaceAppend(Replace(a1, '_', " underscore "), Replace(b1, '_', " underscore "), '-', " dash ");
  }

  lemma SpeakLocalChar(c: char)
    ensures SpeakLocal([c]) == LocalWord(c)
  {
    if c == '.' {
      assert Replace([c], '.', " dot ") == " dot ";
      ReplaceAbsent(" dot ", '_', " underscore ");
      ReplaceAbsent(" dot ", '-', " dash ");
    } else {
      assert Replace([c], '.', " dot ") == [c];
      if c == '_' {
        assert Replace([c], '_', " underscore ") == " underscore ";
        ReplaceAbsent(" underscore ", '-', " dash ");
      } else {
        assert Replace([c], '_', " underscore ") == [c];
        assert Replace([c], '-', " dash ") == LocalWord(c);
      }
    }
  }

  /**
   * The chained replacements do not interfere (no inserted word contains a character a
   * later replacement rewrites), so they speak each character on its own.
   */
  lemma {:induction false} SpeakLocalSpells(local: string)
    ensures SpeakLocal(local) == SpellLocal(local)
  {
    if local != [] {
      SpeakLocalSpells(local[1..]);
      assert local == [local[0]] + local[1..];
      SpeakLocalAppend([local[0]], local[1..]);
      SpeakLocalChar(local[0]);
    }
  }

  /** The spoken email has no `@` and no `.` (the local part and domain of a match have no `@`). */
  lemma SpeakEmailFacts(local: string, domain: string)
    requires '@' !in local && '@' !in domain
    ensures '@' !in SpeakEmail(local, domain) && '.' !in SpeakEmail(local, domain)
  {
    var r1 := Replace(local, '.', " dot ");
    var r2 := Replace(r1, '_', " underscore ");
    ReplaceAvoids(local, '.', " dot ", '@');
    ReplaceAvoids(r1, '_', " underscore ", '@');
    ReplaceAvoids(r2, '-', " dash ", '@');
    ReplaceAvoids(local, '.', " dot ", '.');
    ReplaceAvoids(r1, '_', " underscore ", '.');
    ReplaceAvoids(r2, '-', " dash ", '.');
    ReplaceAvoids(domain, '.', " dot ", '@');
    ReplaceAvoids(domain, '.', " dot ", '.');
  }

  /** The callback's edit for the email match at `q`. */
  function EmailEdit(s: string, q: nat): Option<Edit>
    requires q <= |s|
  {
    match EmailAt(s, q)
    case None => None
    case Some(m) => Some(Edit(m.end, SpeakEmail(s[q..m.at], s[m.at + 1..m.end])))
  }

  /** The email pass as the matcher `re.sub` runs. */
  function EmailEdits(s: string): (f: nat -> Option<Edit>)
    ensures Anchored(f, |s|)
  {
    (q: nat) => if q <= |s| then EmailEdit(s, q) else None
  }

  /** `normalize_email`. */
  function NormalizeEmail(text: string): string
  {
    SubFrom(EmailEdits(text), text, 0)
  }

  /** The local part and the domain of an email match have no `@`. */
  lemma EmailPartsAvoidAt(s: string, p: nat, m: EmailMatch)
    requires EmailShape(s, p, m)
    ensures '@' !in s[p..m.at] && '@' !in s[m.at + 1..m.end]
  {
    AllInAvoids(s, p, m.at, EmailChars, '@');
    AllInAvoids(s, m.at + 1, m.dot, EmailChars, '@');
    AllInAvoids(s, m.dot + 1, m.end, Letters, '@');
    assert s[m.at + 1..m.end] == s[m.at + 1..m.dot] + [s[m.dot]] + s[m.dot + 1..m.end];
  }

  /** The spoken form of a matched email has no `@` and no `.`. */
  lemma EmailEditFacts(s: string, q: nat)
    requires q <= |s| && EmailEdit(s, q).Some?
    ensures '@' !in EmailEdit(s, q).value.text && '.' !in EmailEdit(s, q).value.text
  {
    var m := EmailAt(s, q).value;
    EmailSound(s, q);
    EmailPartsAvoidAt(s, q, m);
    SpeakEmailFacts(s[q..m.at], s[m.at + 1..m.end]);
  }

  /**
   * Text without an `@` is left alone by `normalize_email`: every match needs one.
   */
  lemma EmailNeedsAt(text: string)
    requires '@' !in text
    ensures NormalizeEmail(text) == text
  {
    forall q: nat | q < |text| ensures EmailEdits(text)(q).None? {
      if EmailAt(text, q).Some? {
        assert false;
      }
    }
    SubUnmatched(EmailEdits(text), text);
  }

  /**
   * `normalize_email` is not idempotent. In `a@b.cc@d.com` the first match is `a@b.cc`,
   * whose top-level domain ends at the second `@`; what follows, `@d.com`, has no local
   * part and is copied. The output still holds the address `cc@d.com`, which a second
   * pass rewrites.
   */
  lemma EmailNotIdempotent()
    ensures NormalizeEmail("a@b.cc@d.com") == "a at b dot cc@d.com"
    ensures NormalizeEmail("a at b dot cc@d.com") == "a at b dot cc at d dot com"
    ensures NormalizeEmail(NormalizeEmail("a@b.cc@d.com")) != NormalizeEmail("a@b.cc@d.com")
  {
    var x := "a@b.cc@d.com";
    FirstPass(x);
    var y := "a at b dot cc@d.com";
    SecondPass(y);
  }

  lemma FirstPass(x: string)
    requires x == "a@b.cc@d.com"
    ensures NormalizeEmail(x) == "a at b dot cc@d.com"
  {
    var f := EmailEdits(x);
    FirstPassMatch(x);
    FirstPassRest(x);
    SubFromEdit(f, x, 0);
    SubCopies(f, x, 6, 12);
    assert x[6..12] == "@d.com";
    FirstPassJoin();
  }

  lemma FirstPassJoin()
    ensures "a at b dot cc" + "@d.com" + [] == "a at b dot cc@d.com"
  {
  }

  /** At the start the scanner finds `a@b.cc`, whose top-level domain stops at the second `@`. */
  lemma FirstPassMatch(x: string)
    requires x == "a@b.cc@d.com"
    ensures EmailEdits(x)(0) == Some(Edit(6, "a at b dot cc"))
  {
    FirstPassLocal(x);
    FirstPassDomain(x);
    assert x[0..1] == "a" && x[2..6] == "b" + "." + "cc";
    SpeakPlain("a", "b", "cc");
    FirstPassSpoken();
    EditOfMatch(x, 0, EmailMatch(1, 3, 6), "a", "b" + "." + "cc");
  }

  lemma FirstPassSpoken()
    ensures "a" + " at " + "b" + " dot " + "cc" == "a at b dot cc"
  {
  }

  lemma FirstPassLocal(x: string)
    requires x == "a@b.cc@d.com"
    ensures Boundary(x, 0) && Span(x, 0, EmailChars) == 1 && x[1] == '@'
  {
    assert Span(x, 1, EmailChars) == 0;
  }

  lemma FirstPassDomain(x: string)
    requires x == "a@b.cc@d.com"
    ensures EmailDomain(x, 1) == Some(EmailMatch(1, 3, 6))
  {
    assert Span(x, 6, EmailChars) == 0;
    assert Span(x, 5, EmailChars) == 1;
    assert Span(x, 4, EmailChars) == 2;
    assert Span(x, 3, EmailChars) == 3;
    assert Span(x, 2, EmailChars) == 4;
    assert Span(x, 6, Letters) == 0;
    assert Span(x, 5, Letters) == 1;
    assert Span(x, 4, Letters) == 2;
    assert TldAt(x, 3, true);
    assert LastTld(x, 3, 6, true) == Some(3);
  }

  /** `@d.com` has no local part before its `@`, so nothing in it matches. */
  lemma FirstPassRest(x: string)
    requires x == "a@b.cc@d.com"
    ensures forall q: nat :: 6 <= q < 12 ==> EmailEdits(x)(q).None?
  {
    assert Span(x, 12, EmailChars) == 0;
    assert Span(x, 11, EmailChars) == 1;
    assert Span(x, 10, EmailChars) == 2;
    assert Span(x, 9, EmailChars) == 3;
    assert Span(x, 8, EmailChars) == 4;
    assert Span(x, 7, EmailChars) == 5;
    assert Span(x, 6, EmailChars) == 0;
  }

  lemma SecondPass(y: string)
    requires y == "a at b dot cc@d.com"
    ensures NormalizeEmail(y) == "a at b dot cc at d dot com"
  {
    SecondPassPrefix(y);
    SecondPassMatch(y);
    SubLastMatch(EmailEdits(y), y, 11, "cc at d dot com");
    assert y[..11] == "a at b dot ";
    SecondPassJoin();
  }

  lemma SecondPassJoin()
    ensures "a at b dot " + "cc at d dot com" == "a at b dot cc at d dot com"
  {
  }

  /** A text whose only match runs from `m` to its end: the copied prefix, then the callback's text. */
  lemma SubLastMatch(f: nat -> Option<Edit>, s: string, m: nat, text: string)
    requires m < |s| && Anchored(f, |s|)
    requires forall q: nat :: q < m ==> f(q).None?
    requires f(m) == Some(Edit(|s|, text))
    ensures SubFrom(f, s, 0) == s[..m] + text
  {
    SubCopies(f, s, 0, m);
    SubFromEdit(f, s, m);
  }

  /** Where the pattern matches, the callback's text replaces the match. */
  lemma SubFromEdit(f: nat -> Option<Edit>, s: string, p: nat)
    requires p < |s| && Anchored(f, |s|) && f(p).Some?
    ensures SubFrom(f, s, p) == f(p).value.text + SubFrom(f, s, f(p).value.end)
  {
  }

  /** The words of the first pass's output hold no `@` after them, so none of them matches. */
  lemma SecondPassPrefix(y: string)
    requires y == "a at b dot cc@d.com"
    ensures forall q: nat :: q < 11 ==> EmailEdits(y)(q).None?
  {
    assert Span(y, 4, EmailChars) == 0;
    assert Span(y, 3, EmailChars) == 1;
    assert Span(y, 2, EmailChars) == 2;
    assert Span(y, 10, EmailChars) == 0;
    assert Span(y, 9, EmailChars) == 1;
    assert Span(y, 8, EmailChars) == 2;
    assert Span(y, 7, EmailChars) == 3;
    forall q: nat | q < 11
      ensures EmailAt(y, q).None?
    {
      if Boundary(y, q) {
        assert q in {0, 1, 2, 4, 5, 6, 7, 10};
        assert Span(y, q, EmailChars) == if q == 2 then 2 else if q == 7 then 3 else if y[q] == ' ' then 0 else 1;
      }
    }
  }

  /** `cc@d.com`, left over from the first pass, is an address. */
  lemma SecondPassMatch(y: string)
    requires y == "a at b dot cc@d.com"
    ensures EmailEdits(y)(11) == Some(Edit(19, "cc at d dot com"))
  {
    SecondPassLocal(y);
    SecondPassDomain(y);
    assert y[11..13] == "cc" && y[14..19] == "d" + "." + "com";
    SpeakPlain("cc", "d", "com");
    SecondPassSpoken();
    EditOfMatch(y, 11, EmailMatch(13, 15, 19), "cc", "d" + "." + "com");
  }

  /** The edit at `q` speaks the local part and the domain of the match found there. */
  lemma EditOfMatch(s: string, q: nat, m: EmailMatch, local: string, domain: string)
    requires q <= |s| && EmailAt(s, q) == Some(m)
    requires s[q..m.at] == local && s[m.at + 1..m.end] == domain
    ensures EmailEdits(s)(q) == Some(Edit(m.end, SpeakEmail(local, domain)))
  {
  }

  lemma SecondPassSpoken()
    ensures "cc" + " at " + "d" + " dot " + "com" == "cc at d dot com"
  {
  }

  /** A plain local part and a domain with one dot are spoken as `local at host dot tld`. */
  lemma SpeakPlain(local: string, host: string, tld: string)
    requires '.' !in local && '_' !in local && '-' !in local && '.' !in host && '.' !in tld
    ensures SpeakEmail(local, host + "." + tld) == local + " at " + host + " dot " + tld
  {
    ReplaceAbsent(local, '.', " dot ");
    ReplaceAbsent(local, '_', " underscore ");
    ReplaceAbsent(local, '-', " dash ");
    ReplaceAppend(host + ".", tld, '.', " dot ");
    ReplaceAppend(host, ".", '.', " dot ");
    ReplaceAbsent(host, '.', " dot ");
    ReplaceAbsent(tld, '.', " dot ");
    assert Replace(".", '.', " dot ") == " dot ";
  }

  lemma SecondPassLocal(y: string)
    requires y == "a at b dot cc@d.com"
    ensures Boundary(y, 11) && Span(y, 11, EmailChars) == 2 && y[13] == '@'
  {
    assert Span(y, 13, EmailChars) == 0;
    assert Span(y, 12, EmailChars) == 1;
  }

  lemma SecondPassDomain(y: string)
    requires y == "a at b dot cc@d.com"
    ensures EmailDomain(y, 13) == Some(EmailMatch(13, 15, 19))
  {
    assert Span(y, 19, EmailChars) == 0;
    assert Span(y, 18, EmailChars) == 1;
    assert Span(y, 17, EmailChars) == 2;
    assert Span(y, 16, EmailChars) == 3;
    assert Span(y, 15, EmailChars) == 4;
    assert Span(y, 14, EmailChars) == 5;
    assert Span(y, 19, Letters) == 0;
    assert Span(y, 18, Letters) == 1;
    assert Span(y, 17, Letters) == 2;
    assert Span(y, 16, Letters) == 3;
    assert TldAt(y, 15, true);
    assert LastTld(y, 15, 19, true) == Some(15);
  }

  // ---------------------------------------------------------------------------------
  // URLs:  (https?://)?([a-zA-Z0-9.-]+\.[a-zA-Z]{2,})(\/[^\s]*)?
  // ---------------------------------------------------------------------------------

  /** `[a-zA-Z0-9.-]` */
  const UrlChars := CharClass(false, true, true, false, ".-")
  /** `[^\s]` */
  const PathChars := CharClass(true, false, false, true, [])

  /** `://` at `i`. */
  predicate ColonSlashSlash(s: string, i: nat)
  {
    i + 3 <= |s| && s[i] == ':' && s[i + 1] == '/' && s[i + 2] == '/'
  }

  /**
   * Length of the `(https?://)?` group at `p`: `http`, then the optional `s` is tried
   * first, then without it; with no `://` to follow, the group is absent.
   */
  function SchemeLength(s: string, p: nat): (n: nat)
    ensures n == 0 || n == 7 || n == 8
  {
    if p + 4 <= |s| && s[p] == 'h' && s[p + 1] == 't' && s[p + 2] == 't' && s[p + 3] == 'p' then
      if s[p + 4 ..] != [] && s[p + 4] == 's' && ColonSlashSlash(s, p + 5) then 8
      else if ColonSlashSlash(s, p + 4) then 7
      else 0
    else 0
  }

  /**
   * A URL match: the scheme group's length, the dot before the top-level domain, the end
   * of the domain group and the end of the match (after the optional path).
   */
  datatype UrlMatch = UrlMatch(scheme: nat, dot: nat, host: nat, end: nat)

  /** The URL pattern matches [p, m.end) with these groups (regex membership). */
  ghost predicate UrlShape(s: string, p: nat, m: UrlMatch)
  {
    && p + m.scheme < m.dot && m.dot + 2 < m.host <= m.end <= |s|
    && (m.scheme == 0 || m.scheme == SchemeLength(s, p))
    && AllIn(s, p + m.scheme, m.dot, UrlChars) && s[m.dot] == '.'
    && AllIn(s, m.dot + 1, m.host, Letters)
    && (m.end == m.host || (s[m.host] == '/' && AllIn(s, m.host + 1, m.end, PathChars)))
  }

  /** The URL match that Python's backtracking finds at `p`, if any. */
  function UrlAt(s: string, p: nat): (r: Option<UrlMatch>)
    requires p <= |s|
    ensures r.Some? ==> p + r.value.scheme < r.value.dot < r.value.host <= r.value.end <= |s|
  {
    var d := p + SchemeLength(s, p);
    if |s| < d then None
    else match LastTld(s, d + 1, d + Span(s, d, UrlChars), false)
      case None => None
      case Some(dot) =>
        var host := dot + 1 + Span(s, dot + 1, Letters);
        var end := if host < |s| && s[host] == '/' then host + 1 + Span(s, host + 1, PathChars) else host;
        Some(UrlMatch(d - p, dot, host, end))
  }

  /** The groups of the URL the scanner finds at `p`, read off its definition. */
  lemma UrlAtParts(s: string, p: nat)
    requires p <= |s| && UrlAt(s, p).Some?
    ensures var m := UrlAt(s, p).value;
      && m.scheme == SchemeLength(s, p)
      && m.dot < p + m.scheme + Span(s, p + m.scheme, UrlChars) && s[m.dot] == '.'
      && m.host == m.dot + 1 + Span(s, m.dot + 1, Letters)
      && (m.end == m.host || (s[m.host] == '/' && m.end == m.host + 1 + Span(s, m.host + 1, PathChars)))
  {
  }

  /** What the scanner finds is a match of the URL pattern. */
  lemma UrlSound(s: string, p: nat)
    requires p <= |s| && UrlAt(s, p).Some?
    ensures UrlShape(s, p, UrlAt(s, p).value)
  {
    var m := UrlAt(s, p).value;
    UrlAtParts(s, p);
    SpanMaximal(s, p + m.scheme, UrlChars);
    SpanMaximal(s, m.dot + 1, Letters);
    if m.end != m.host {
      SpanMaximal(s, m.host + 1, PathChars);
    }
  }

  /**
   * When a scheme is present the pattern cannot match at `p` without it: the domain group
   * would have to end before the `:`, within `http` or `https`, which hold no dot.
   */
  lemma SchemeForced(s: string, p: nat, m: UrlMatch)
    requires UrlShape(s, p, m)
    ensures m.scheme == SchemeLength(s, p)
  {
  }

  /** A domain group from `d` with its top-level dot at `dot` is found, or one with a later dot. */
  lemma DomainFound(s: string, d: nat, dot: nat, host: nat)
    requires d < dot && dot + 2 < host <= |s|
    requires AllIn(s, d, dot, UrlChars) && s[dot] == '.' && AllIn(s, dot + 1, host, Letters)
    ensures LastTld(s, d + 1, d + Span(s, d, UrlChars), false).Some?
    ensures LastTld(s, d + 1, d + Span(s, d, UrlChars), false).value >= dot
  {
    SpanCovers(s, d, dot + 1, UrlChars);
    SpanCovers(s, dot + 1, host, Letters);
    LastTldFinds(s, d + 1, d + Span(s, d, UrlChars), false, dot);
  }

  /**
   * Every match of the URL pattern at `p` is found, with the same scheme group, and the
   * scanner prefers the rightmost possible dot, as the greedy domain group does.
   */
  lemma UrlComplete(s: string, p: nat, m: UrlMatch)
    requires UrlShape(s, p, m)
    ensures UrlAt(s, p).Some? && UrlAt(s, p).value.scheme == m.scheme && UrlAt(s, p).value.dot >= m.dot
  {
    SchemeForced(s, p, m);
    DomainFound(s, p + m.scheme, m.dot, m.host);
  }

  /** `s` contains `w` somewhere (Python's `w in s`). */
  predicate Occurs(s: string, w: string)
    decreases |s|
  {
    StartsWith(s, 0, w) || (s != [] && Occurs(s[1..], w))
  }

  /** Whatever occurs in `s` is made of characters of `s`. */
  lemma {:induction false} OccursChars(s: string, w: string, i: nat)
    requires Occurs(s, w) && i < |w|
    ensures w[i] in s
    decreases |s|
  {
    if StartsWith(s, 0, w) {
      StartsWithSlice(s, 0, w);
      assert w[i] == s[i];
    } else {
      OccursChars(s[1..], w, i);
    }
  }

  /** The words `replace_url` says for the scheme group. */
  function SchemeWords(protocol: string): string
  {
    if protocol == [] then []
    else if Occurs(protocol, "https") then "H T T P S colon slash slash "
    else if Occurs(protocol, "http") then "H T T P colon slash slash "
    else []
  }

  lemma HttpsSpoken()
    ensures SchemeWords("https://") == "H T T P S colon slash slash "
  {
    StartsWithSlice("https://", 0, "https");
    assert "https://"[0..5] == "https";
  }

  lemma HttpSpoken()
    ensures SchemeWords("http://") == "H T T P colon slash slash "
  {
    StartsWithSlice("http://", 0, "http");
    assert "http://"[0..4] == "http";
    if Occurs("http://", "https") {
      OccursChars("http://", "https", 4);
    }
  }

  /** The scheme group of a match is spoken as HTTPS, HTTP or not at all. */
  lemma SchemeWordsOfMatch(s: string, p: nat)
    requires p + SchemeLength(s, p) <= |s|
    ensures SchemeLength(s, p) == 8 ==> SchemeWords(s[p..p + 8]) == "H T T P S colon slash slash "
    ensures SchemeLength(s, p) == 7 ==> SchemeWords(s[p..p + 7]) == "H T T P colon slash slash "
    ensures SchemeLength(s, p) == 0 ==> SchemeWords(s[p..p]) == []
  {
    var n := SchemeLength(s, p);
    if n == 8 {
      assert s[p..p + 8] == "https://";
      HttpsSpoken();
    } else if n == 7 {
      assert s[p..p + 7] == "http://";
      HttpSpoken();
    }
  }

  /** The domain group spoken: a leading `www.` as letters, then every dot as ` dot `. */
  function HostWords(domain: string): string
  {
    if StartsWith(domain, 0, "www.") then "W W W dot " + Replace(domain[4..], '.', " dot ")
    else Replace(domain, '.', " dot ")
  }

  /** No dot of the domain survives into its spoken form. */
  lemma HostWordsNoDot(domain: string)
    ensures '.' !in HostWords(domain)
  {
    if StartsWith(domain, 0, "www.") {
      StartsWithSlice(domain, 0, "www.");
      ReplaceAvoids(domain[4..], '.', " dot ", '.');
    } else {
      ReplaceAvoids(domain, '.', " dot ", '.');
    }
  }

  /** The path group spoken: ` slash ` and then the stripped path with each `/` as ` slash `. */
  function PathWords(path: string): string
  {
    if path == [] then [] else " slash " + Strip(Replace(path, '/', " slash "))
  }

  /** Stripping keeps everything up to the last non-space character. */
  lemma StripEndKeeps(s: string, i: nat)
    requires i < |s| && !IsSpace(s[i])
    ensures i < |StripEnd(s)|
  {
    StripEndFacts(s);
  }

  /** Stripping ` slash ` and what follows keeps the word `slash` at the front. */
  lemma StripSlash(r: string) returns (rest: string)
    ensures Strip(" slash " + r) == "slash" + rest
  {
    var x := " slash " + r;
    assert !IsSpace(x[1]);
    assert Span(x, 0, Spaces) == 1;
    var y := StripStart(x);
    assert y == x[1..];
    StripEndKeeps(y, 4);
    var z := StripEnd(y);
    assert z[..5] == y[..5] == "slash";
    rest := z[5..];
    assert z == z[..5] + z[5..];
  }

  /** A path that starts with `/` is spoken from ` slash slash` on: the `/` is said twice. */
  lemma PathWordsSlash(path: string) returns (rest: string)
    requires path != [] && path[0] == '/'
    ensures PathWords(path) == " slash slash" + rest
  {
    rest := StripSlash(Replace(path[1..], '/', " slash "));
    assert " slash " + ("slash" + rest) == " slash slash" + rest;
  }

  /** `replace_url`: the scheme, the domain and the path, each spoken. */
  function SpeakUrl(protocol: string, domain: string, path: string): string
  {
    SchemeWords(protocol) + HostWords(domain) + PathWords(path)
  }

  /** The callback's edit for the URL match at `q`. */
  function UrlEdit(s: string, q: nat): Option<Edit>
    requires q <= |s|
  {
    match UrlAt(s, q)
    case None => None
    case Some(m) => Some(Edit(m.end, SpeakUrl(s[q..q + m.scheme], s[q + m.scheme..m.host], s[m.host..m.end])))
  }

  /** The URL pass as the matcher `re.sub` runs. */
  function UrlEdits(s: string): (f: nat -> Option<Edit>)
    ensures Anchored(f, |s|)
  {
    (q: nat) => if q <= |s| then UrlEdit(s, q) else None
  }

  /** `normalize_url`. */
  function NormalizeUrl(text: string): string
  {
    SubFrom(UrlEdits(text), text, 0)
  }

  // ---------------------------------------------------------------------------------
  // Phone numbers:  (\+?\d{1,3})?[\s.-]?\(?\d{3}\)?[\s.-]?\d{3}[\s.-]?\d{4}
  // ---------------------------------------------------------------------------------

  /** `[\s.-]` */
  const Separators := CharClass(false, false, false, true, ".-")

  /** Position after an optional character of class `k` at `i`, taken when present. */
  function Skip(s: string, i: nat, k: CharClass): (j: nat)
    ensures j == i || (j == i + 1 && i < |s| && In(k, s[i]))
  {
    if i < |s| && In(k, s[i]) then i + 1 else i
  }

  /** Position after an optional `c` at `i`, taken when present. */
  function SkipChar(s: string, i: nat, c: char): (j: nat)
    ensures j == i || (j == i + 1 && i < |s| && s[i] == c)
  {
    if i < |s| && s[i] == c then i + 1 else i
  }

  function Bit(b: bool): nat { if b then 1 else 0 }

  /** An optional character at `i`: when `b`, it is there and of class `k`. */
  ghost predicate OptIn(s: string, i: nat, b: bool, k: CharClass)
  {
    b ==> i < |s| && In(k, s[i])
  }

  /** `[\s.-]?\(?\d{3}` matches [i, end), with the separator if `sep` and the `(` if `open`. */
  ghost predicate AreaShape(s: string, i: nat, sep: bool, open: bool, end: nat)
  {
    var b := i + Bit(sep) + Bit(open);
    && end == b + 3 && end <= |s|
    && OptIn(s, i, sep, Separators) && (open ==> s[i + Bit(sep)] == '(') && AllIn(s, b, end, Digits)
  }

  /** `\)?[\s.-]?\d{3}` matches [i, end), with the `)` if `close` and the separator if `sep`. */
  ghost predicate ExchangeShape(s: string, i: nat, close: bool, sep: bool, end: nat)
  {
    var d := i + Bit(close) + Bit(sep);
    && end == d + 3 && end <= |s|
    && (close ==> i < |s| && s[i] == ')') && OptIn(s, i + Bit(close), sep, Separators) && AllIn(s, d, end, Digits)
  }

  /** `[\s.-]?\d{4}` matches [i, end), with the separator if `sep`. */
  ghost predicate LineShape(s: string, i: nat, sep: bool, end: nat)
  {
    var e := i + Bit(sep);
    end == e + 4 && end <= |s| && OptIn(s, i, sep, Separators) && AllIn(s, e, end, Digits)
  }

  /**
   * `[\s.-]?\(?\d{3}`: each optional character is followed by something it cannot be,
   * so taking it when present is the only choice that can succeed.
   */
  function Area(s: string, i: nat): (r: Option<nat>)
    ensures r.Some? ==> i + 3 <= r.value <= |s|
  {
    var b := SkipChar(s, Skip(s, i, Separators), '(');
    if b > |s| || Span(s, b, Digits) < 3 then None else Some(b + 3)
  }

  /** `\)?[\s.-]?\d{3}`, taking each optional character when present. */
  function Exchange(s: string, i: nat): (r: Option<nat>)
    ensures r.Some? ==> i + 3 <= r.value <= |s|
  {
    var d := Skip(s, SkipChar(s, i, ')'), Separators);
    if d > |s| || Span(s, d, Digits) < 3 then None else Some(d + 3)
  }

  /** `[\s.-]?\d{4}`, taking the separator when present. */
  function Line(s: string, i: nat): (r: Option<nat>)
    ensures r.Some? ==> i + 4 <= r.value <= |s|
  {
    var e := Skip(s, i, Separators);
    if e > |s| || Span(s, e, Digits) < 4 then None else Some(e + 4)
  }

  lemma AreaSound(s: string, i: nat) returns (sep: bool, open: bool)
    requires Area(s, i).Some?
    ensures AreaShape(s, i, sep, open, Area(s, i).value)
  {
    var a := Skip(s, i, Separators);
    var b := SkipChar(s, a, '(');
    SpanMaximal(s, b, Digits);
    sep, open := a > i, b > a;
  }

  lemma AreaComplete(s: string, i: nat, sep: bool, open: bool, end: nat)
    requires AreaShape(s, i, sep, open, end)
    ensures Area(s, i) == Some(end)
  {
    var b := i + Bit(sep) + Bit(open);
    assert In(Digits, s[b]);
    SpanCovers(s, b, end, Digits);
  }

  lemma ExchangeSound(s: string, i: nat) returns (close: bool, sep: bool)
    requires Exchange(s, i).Some?
    ensures ExchangeShape(s, i, close, sep, Exchange(s, i).value)
  {
    var c := SkipChar(s, i, ')');
    var d := Skip(s, c, Separators);
    SpanMaximal(s, d, Digits);
    close, sep := c > i, d > c;
  }

  lemma ExchangeComplete(s: string, i: nat, close: bool, sep: bool, end: nat)
    requires ExchangeShape(s, i, close, sep, end)
    ensures Exchange(s, i) == Some(end)
  {
    var d := i + Bit(close) + Bit(sep);
    assert In(Digits, s[d]);
    SpanCovers(s, d, end, Digits);
  }

  lemma LineSound(s: string, i: nat) returns (sep: bool)
    requires Line(s, i).Some?
    ensures LineShape(s, i, sep, Line(s, i).value)
  {
    var e := Skip(s, i, Separators);
    SpanMaximal(s, e, Digits);
    sep := e > i;
  }

  lemma LineComplete(s: string, i: nat, sep: bool, end: nat)
    requires LineShape(s, i, sep, end)
    ensures Line(s, i) == Some(end)
  {
    var e := i + Bit(sep);
    assert In(Digits, s[e]);
    SpanCovers(s, e, end, Digits);
  }

  /** Which optional characters after the leading group are present. */
  datatype Layout = Layout(sep1: bool, open: bool, close: bool, sep2: bool, sep3: bool)

  /**
   * `[\s.-]?\(?\d{3}\)?[\s.-]?\d{3}[\s.-]?\d{4}` matches [i, end) with the optional
   * characters chosen by `l` (regex membership).
   */
  ghost predicate RestShape(s: string, i: nat, l: Layout, end: nat)
  {
    var x := i + Bit(l.sep1) + Bit(l.open) + 3;
    var y := x + Bit(l.close) + Bit(l.sep2) + 3;
    AreaShape(s, i, l.sep1, l.open, x) && ExchangeShape(s, x, l.close, l.sep2, y) && LineShape(s, y, l.sep3, end)
  }

  /** The pattern after the leading group: area code, exchange and line number in turn. */
  function PhoneRest(s: string, i: nat): (r: Option<nat>)
    ensures r.Some? ==> i + 10 <= r.value <= |s|
  {
    match Area(s, i)
    case None => None
    case Some(x) =>
      match Exchange(s, x)
      case None => None
      case Some(y) => Line(s, y)
  }

  /** What `PhoneRest` finds matches the pattern's tail. */
  lemma RestSound(s: string, i: nat) returns (l: Layout)
    requires PhoneRest(s, i).Some?
    ensures RestShape(s, i, l, PhoneRest(s, i).value)
  {
    var sep1, open := AreaSound(s, i);
    var x := Area(s, i).value;
    var close, sep2 := ExchangeSound(s, x);
    var sep3 := LineSound(s, Exchange(s, x).value);
    l := Layout(sep1, open, close, sep2, sep3);
  }

  /** The pattern's tail matches at `i` in one way only, and `PhoneRest` finds it. */
  lemma RestComplete(s: string, i: nat, l: Layout, end: nat)
    requires RestShape(s, i, l, end)
    ensures PhoneRest(s, i) == Some(end)
  {
    var x := i + Bit(l.sep1) + Bit(l.open) + 3;
    var y := x + Bit(l.close) + Bit(l.sep2) + 3;
    AreaComplete(s, i, l.sep1, l.open, x);
    ExchangeComplete(s, x, l.close, l.sep2, y);
    LineComplete(s, y, l.sep3, end);
  }

  /** The leading group `\+?\d{1,3}`: whether it has the `+`, and how many digits. */
  datatype Lead = Lead(plus: bool, digits: nat)

  /** The whole phone pattern matches [p, end) with leading group `g` and layout `l`. */
  ghost predicate PhoneShape(s: string, p: nat, g: Option<Lead>, l: Layout, end: nat)
  {
    match g
    case None => RestShape(s, p, l, end)
    case Some(lead) =>
      && 1 <= lead.digits <= 3 && OptIn(s, p, lead.plus, CharClass(false, false, false, false, "+"))
      && p + Bit(lead.plus) + lead.digits <= |s|
      && AllIn(s, p + Bit(lead.plus), p + Bit(lead.plus) + lead.digits, Digits)
      && RestShape(s, p + Bit(lead.plus) + lead.digits, l, end)
  }

  /** A tail scanner over a text of length `n`: what it finds from `i` is ten characters or more. */
  ghost predicate TailScanner(rest: nat -> Option<nat>, n: nat)
  {
    forall i: nat :: rest(i).Some? ==> i + 10 <= rest(i).value <= n
  }

  /** `PhoneRest` over `s`, as the scanner the leading group hands on to. */
  function Tails(s: string): (rest: nat -> Option<nat>)
    ensures TailScanner(rest, |s|)
  {
    (i: nat) => PhoneRest(s, i)
  }

  /** `\d{1,3}` from `q`, trying `k` digits first and then fewer, each followed by the tail. */
  function LeadFrom(rest: nat -> Option<nat>, n: nat, q: nat, k: nat): (r: Option<nat>)
    requires TailScanner(rest, n)
    ensures r.Some? ==> q + 10 <= r.value <= n
  {
    if k == 0 then None
    else match rest(q + k)
      case Some(e) => Some(e)
      case None => LeadFrom(rest, n, q, k - 1)
  }

  /** What `LeadFrom` finds is a tail after between one and `k` digits. */
  lemma {:induction false} LeadFromSound(rest: nat -> Option<nat>, n: nat, q: nat, k: nat) returns (j: nat)
    requires TailScanner(rest, n) && LeadFrom(rest, n, q, k).Some?
    ensures 1 <= j <= k && rest(q + j) == LeadFrom(rest, n, q, k)
    decreases k
  {
    if rest(q + k).Some? {
      j := k;
    } else {
      j := LeadFromSound(rest, n, q, k - 1);
    }
  }

  /** A tail after `j` digits, `j` at most `k`, is not missed: `LeadFrom` finds some match. */
  lemma {:induction false} LeadFromComplete(rest: nat -> Option<nat>, n: nat, q: nat, k: nat, j: nat)
    requires TailScanner(rest, n) && 1 <= j <= k && rest(q + j).Some?
    ensures LeadFrom(rest, n, q, k).Some?
    decreases k
  {
    if k > j && rest(q + k).None? {
      LeadFromComplete(rest, n, q, k - 1, j);
    }
  }

  /** How many digits `\d{1,3}` may take at `q`: the run of digits there, at most three. */
  function LeadDigits(s: string, q: nat): (k: nat)
    requires q <= |s|
    ensures k <= 3 && q + k <= |s|
  {
    if Span(s, q, Digits) < 3 then Span(s, q, Digits) else 3
  }

  /**
   * `(\+?\d{1,3})?` followed by the tail scanner `rest`: with the `+` when present, the
   * leading group from its longest digit run down, and without the group last.
   */
  function WithLead(rest: nat -> Option<nat>, s: string, p: nat): (r: Option<nat>)
    requires p <= |s| && TailScanner(rest, |s|)
    ensures r.Some? ==> p + 10 <= r.value <= |s|
  {
    var q := SkipChar(s, p, '+');
    match LeadFrom(rest, |s|, q, LeadDigits(s, q))
    case Some(e) => Some(e)
    case None => rest(p)
  }

  /** What `WithLead` finds is the tail after one to three leading digits, or with no group. */
  lemma WithLeadSound(rest: nat -> Option<nat>, s: string, p: nat) returns (led: bool, j: nat)
    requires p <= |s| && TailScanner(rest, |s|) && WithLead(rest, s, p).Some?
    ensures led ==> 1 <= j <= LeadDigits(s, SkipChar(s, p, '+'))
    ensures led ==> rest(SkipChar(s, p, '+') + j) == WithLead(rest, s, p)
    ensures !led ==> rest(p) == WithLead(rest, s, p)
  {
    var q := SkipChar(s, p, '+');
    var k := LeadDigits(s, q);
    led, j := LeadFrom(rest, |s|, q, k).Some?, 0;
    if led {
      j := LeadFromSound(rest, |s|, q, k);
    }
  }

  /** The phone match that Python's backtracking finds at `p`: the end of the match, if any. */
  function PhoneAt(s: string, p: nat): (r: Option<nat>)
    requires p <= |s|
    ensures r.Some? ==> p + 10 <= r.value <= |s|
  {
    WithLead(Tails(s), s, p)
  }

  /** What the scanner finds is a match of the phone pattern. */
  /** Up to three digits after the optional `+`, then the tail: the pattern with its leading group. */
  lemma LeadShape(s: string, p: nat, j: nat, l: Layout, end: nat)
    requires p <= |s| && 1 <= j <= LeadDigits(s, SkipChar(s, p, '+'))
    requires RestShape(s, SkipChar(s, p, '+') + j, l, end)
    ensures PhoneShape(s, p, Some(Lead(SkipChar(s, p, '+') > p, j)), l, end)
  {
    SpanMaximal(s, SkipChar(s, p, '+'), Digits);
  }

  /** Whatever `rest` finds matches the tail of the pattern. */
  ghost predicate TailSound(rest: nat -> Option<nat>, s: string)
  {
    forall i: nat :: rest(i).Some? ==> exists l :: RestShape(s, i, l, rest(i).value)
  }

  /** `rest` finds every match of the tail of the pattern. */
  ghost predicate TailComplete(rest: nat -> Option<nat>, s: string)
  {
    forall i: nat, l, e: nat :: RestShape(s, i, l, e) ==> rest(i) == Some(e)
  }

  /** Over a sound tail scanner, what `WithLead` finds matches the whole pattern. */
  lemma WithLeadShape(rest: nat -> Option<nat>, s: string, p: nat) returns (g: Option<Lead>, l: Layout)
    requires p <= |s| && TailScanner(rest, |s|) && TailSound(rest, s) && WithLead(rest, s, p).Some?
    ensures PhoneShape(s, p, g, l, WithLead(rest, s, p).value)
  {
    var q := SkipChar(s, p, '+');
    var led, j := WithLeadSound(rest, s, p);
    if led {
      l :| RestShape(s, q + j, l, rest(q + j).value);
      g := Some(Lead(q > p, j));
      LeadShape(s, p, j, l, WithLead(rest, s, p).value);
    } else {
      g := None;
      l :| RestShape(s, p, l, rest(p).value);
    }
  }

  /** Over a complete tail scanner, `WithLead` finds a match wherever the whole pattern matches. */
  lemma WithLeadFinds(rest: nat -> Option<nat>, s: string, p: nat, g: Option<Lead>, l: Layout, end: nat)
    requires p <= |s| && TailScanner(rest, |s|) && TailComplete(rest, s) && PhoneShape(s, p, g, l, end)
    ensures WithLead(rest, s, p).Some?
  {
    match g
    case None =>
      assert rest(p) == Some(end);
    case Some(lead) =>
      var q := p + Bit(lead.plus);
      var j := lead.digits;
      assert SkipChar(s, p, '+') == q;
      SpanCovers(s, q, q + j, Digits);
      assert rest(q + j) == Some(end);
      LeadFromComplete(rest, |s|, q, LeadDigits(s, q), j);
  }

  lemma TailsSound(s: string)
    ensures TailSound(Tails(s), s)
  {
    forall i: nat | Tails(s)(i).Some? ensures exists l :: RestShape(s, i, l, Tails(s)(i).value) {
      var l := RestSound(s, i);
    }
  }

  lemma TailsComplete(s: string)
    ensures TailComplete(Tails(s), s)
  {
    forall i: nat, l, e: nat | RestShape(s, i, l, e) ensures Tails(s)(i) == Some(e) {
      RestComplete(s, i, l, e);
    }
  }

  /** What the scanner finds is a match of the phone pattern. */
  lemma PhoneSound(s: string, p: nat) returns (g: Option<Lead>, l: Layout)
    requires p <= |s| && PhoneAt(s, p).Some?
    ensures PhoneShape(s, p, g, l, PhoneAt(s, p).value)
  {
    TailsSound(s);
    g, l := WithLeadShape(Tails(s), s, p);
  }

  /** Every match of the phone pattern at `p` is found: the scanner reports a match there. */
  lemma PhoneComplete(s: string, p: nat, g: Option<Lead>, l: Layout, end: nat)
    requires p <= |s| && PhoneShape(s, p, g, l, end)
    ensures PhoneAt(s, p).Some?
  {
    TailsComplete(s);
    WithLeadFinds(Tails(s), s, p, g, l, end);
  }

  /** `re.sub(r'[^\d+]', '', phone)`: the digits and `+` signs, in order. */
  function Dial(phone: string): string
  {
    if phone == [] then []
    else (if IsDigit(phone[0]) || phone[0] == '+' then [phone[0]] else []) + Dial(phone[1..])
  }

  /** `Dial` keeps exactly the digits and `+` signs. */
  lemma {:induction false} DialMembers(phone: string, c: char)
    ensures c in Dial(phone) <==> c in phone && (IsDigit(c) || c == '+')
  {
    if phone != [] {
      DialMembers(phone[1..], c);
      assert phone == [phone[0]] + phone[1..];
    }
  }

  /** `Dial` keeps the order: filtering a concatenation filters each part. */
  lemma {:induction false} DialAppend(a: string, b: string)
    ensures Dial(a + b) == Dial(a) + Dial(b)
  {
    if a != [] {
      DialAppend(a[1..], b);
      assert (a + b)[0] == a[0] && (a + b)[1..] == a[1..] + b;
    } else {
      assert a + b == b;
    }
  }

  /** How `replace_phone` says one kept character: `+` as `plus`, a digit as itself. */
  function Token(c: char): string
  {
    if c == '+' then "plus" else [c]
  }

  /** The loop's `spoken`: each token followed by one space. */
  function Spaced(d: string): string
  {
    if d == [] then [] else Spaced(d[..|d| - 1]) + Token(d[|d| - 1]) + " "
  }

  /** The tokens joined by single spaces, with none at either end. */
  function Joined(d: string): string
  {
    if d == [] then []
    else if |d| == 1 then Token(d[0])
    else Joined(d[..|d| - 1]) + " " + Token(d[|d| - 1])
  }

  lemma {:induction false} SpacedJoined(d: string)
    requires d != []
    ensures Spaced(d) == Joined(d) + " "
  {
    if |d| > 1 {
      SpacedJoined(d[..|d| - 1]);
    } else {
      assert d[..0] == [];
    }
  }

  /** A joined sequence of tokens of digits and `+` starts and ends with no space. */
  lemma {:induction false} JoinedEnds(d: string)
    requires d != [] && forall i :: 0 <= i < |d| ==> IsDigit(d[i]) || d[i] == '+'
    ensures Joined(d) != [] && !IsSpace(Joined(d)[0]) && !IsSpace(Joined(d)[|Joined(d)| - 1])
  {
    if |d| > 1 {
      JoinedEnds(d[..|d| - 1]);
    }
  }

  /** `Dial` keeps only digits and `+` signs. */
  lemma DialChars(phone: string)
    ensures forall i :: 0 <= i < |Dial(phone)| ==> IsDigit(Dial(phone)[i]) || Dial(phone)[i] == '+'
  {
    forall i | 0 <= i < |Dial(phone)| ensures IsDigit(Dial(phone)[i]) || Dial(phone)[i] == '+' {
      DialMembers(phone, Dial(phone)[i]);
    }
  }

  /** A text that neither starts nor ends with whitespace strips back to itself after one trailing space. */
  lemma StripTrailingSpace(x: string)
    requires x != [] && !IsSpace(x[0]) && !IsSpace(x[|x| - 1])
    ensures Strip(x + " ") == x
  {
    var y := x + " ";
    assert y[0] == x[0] && !In(Spaces, y[0]);
    assert Span(y, 0, Spaces) == 0;
    assert StripStart(y) == y;
    assert y[..|y| - 1] == x && IsSpace(y[|y| - 1]);
    assert StripEnd(y) == StripEnd(x);
  }

  /** Stripping the loop's result leaves the tokens joined by single spaces. */
  lemma StripSpaced(d: string)
    requires forall i :: 0 <= i < |d| ==> IsDigit(d[i]) || d[i] == '+'
    ensures Strip(Spaced(d)) == Joined(d)
  {
    if d != [] {
      SpacedJoined(d);
      JoinedEnds(d);
      StripTrailingSpace(Joined(d));
    }
  }

  /**
   * `replace_phone` on the matched text: the kept characters spoken one token each, tokens
   * separated by a single space, with no space at either end.
   */
  method SpeakPhone(phone: string) returns (spoken: string)
    ensures spoken == Joined(Dial(phone))
  {
    var digits := Dial(phone);
    spoken := [];
    for i := 0 to |digits|
      invariant spoken == Spaced(digits[..i])
    {
      assert digits[..i + 1][..i] == digits[..i];
      if digits[i] == '+' {
        spoken := spoken + "plus ";
      } else {
        spoken := spoken + [digits[i]] + " ";
      }
    }
    assert digits[..|digits|] == digits;
    DialChars(phone);
    StripSpaced(digits);
    spoken := Strip(spoken);
  }

  /** The callback's edit for the phone match at `q`: the kept characters, spoken. */
  function PhoneEdit(s: string, q: nat): Option<Edit>
    requires q <= |s|
  {
    match PhoneAt(s, q)
    case None => None
    case Some(e) => Some(Edit(e, Joined(Dial(s[q..e]))))
  }

  /** The phone pass as the matcher `re.sub` runs. */
  function PhoneEdits(s: string): (f: nat -> Option<Edit>)
    ensures Anchored(f, |s|)
  {
    (q: nat) => if q <= |s| then PhoneEdit(s, q) else None
  }

  /** `normalize_phone`. */
  function NormalizePhone(text: string): string
  {
    SubFrom(PhoneEdits(text), text, 0)
  }

  /** Every phone match holds a digit (its last four characters are digits). */
  lemma ShapeHasDigit(s: string, p: nat, g: Option<Lead>, l: Layout, end: nat) returns (i: nat)
    requires PhoneShape(s, p, g, l, end)
    ensures p <= i < end && IsDigit(s[i])
  {
    var t := if g.Some? then p + Bit(g.value.plus) + g.value.digits else p;
    assert RestShape(s, t, l, end);
    i := end - 1;
    assert In(Digits, s[i]);
  }

  /** Text without digits holds no phone number and is left alone. */
  lemma PhoneNeedsDigits(text: string)
    requires forall i :: 0 <= i < |text| ==> !IsDigit(text[i])
    ensures NormalizePhone(text) == text
  {
    forall q: nat | q < |text| ensures PhoneEdits(text)(q).None? {
      if PhoneAt(text, q).Some? {
        var g, l := PhoneSound(text, q);
        var i := ShapeHasDigit(text, q, g, l, PhoneAt(text, q).value);
      }
    }
    SubUnmatched(PhoneEdits(text), text);
  }

  // ---------------------------------------------------------------------------------
  // normalize_text
  // ---------------------------------------------------------------------------------

  /** One of the three rewrites. */
  datatype Pass = EmailPass | UrlPass | PhonePass

  function Run(pass: Pass, text: string): string
  {
    match pass
    case EmailPass => NormalizeEmail(text)
    case UrlPass => NormalizeUrl(text)
    case PhonePass => NormalizePhone(text)
  }

  /** The passes applied one after the other, first to last. */
  function Pipeline(passes: seq<Pass>, text: string): string
  {
    if passes == [] then text else Pipeline(passes[1..], Run(passes[0], text))
  }

  /** The passes the flags switch on, in the fixed order email, URL, phone. */
  function Enabled(emails: bool, urls: bool, phones: bool): (r: seq<Pass>)
    ensures |r| <= 3
    ensures forall i, j :: 0 <= i < j < |r| ==> Rank(r[i]) < Rank(r[j])
    ensures (EmailPass in r <==> emails) && (UrlPass in r <==> urls) && (PhonePass in r <==> phones)
  {
    (if emails then [EmailPass] else []) + (if urls then [UrlPass] else []) + (if phones then [PhonePass] else [])
  }

  /** Position of a pass in the fixed order. */
  function Rank(pass: Pass): nat
  {
    match pass
    case EmailPass => 0
    case UrlPass => 1
    case PhonePass => 2
  }

  /** Running a concatenation of passes runs the first part, then the second. */
  lemma {:induction false} PipelineAppend(a: seq<Pass>, b: seq<Pass>, text: string)
    ensures Pipeline(a + b, text) == Pipeline(b, Pipeline(a, text))
    decreases |a|
  {
    if a == [] {
      assert a + b == b;
    } else {
      assert (a + b)[0] == a[0] && (a + b)[1..] == a[1..] + b;
      PipelineAppend(a[1..], b, Run(a[0], text));
    }
  }

  /**
   * `normalize_text`: `result` starts as the text and each enabled pass rewrites it, in
   * the fixed order; with every flag off the text comes back unchanged, and with only
   * emails on (as `generate_line` calls it) only the email pass runs.
   */
  method NormalizeText(text: string, emails: bool, urls: bool, phones: bool) returns (result: string)
    ensures result == Pipeline(Enabled(emails, urls, phones), text)
    ensures !emails && !urls && !phones ==> result == text
    ensures emails && !urls && !phones ==> result == NormalizeEmail(text)
  {
    result := text;
    ghost var done: seq<Pass> := [];
    if emails {
      result := NormalizeEmail(result);
      PipelineAppend([], [EmailPass], text);
      done := [EmailPass];
    }
    if urls {
      PipelineAppend(done, [UrlPass], text);
      result := NormalizeUrl(result);
      done := done + [UrlPass];
    }
    if phones {
      PipelineAppend(done, [PhonePass], text);
      result := NormalizePhone(result);
      done := done + [PhonePass];
    }
    assert done == Enabled(emails, urls, phones);
  }
}
