/**
 * The dialogue parser of apps/api/dialogue_generator.py: a content string becomes an
 * ordered list of turns `{voice, voice_path, text}`.
 *
 * The source runs two regular expressions over the whole content with `re.finditer`:
 *   declarations  (voice\d+)_wav\s*=\s*["\']([^"\']+)["\']
 *   utterances    (voice\d+)\s*=\s*"([^"]+)"|(voice\d+)\s*=\s*'([^']+)'
 * Both patterns are deterministic: every repetition in them is followed by a character
 * its class excludes, so a match at a position is unique. `MatchAt` scans them by hand,
 * stage by stage, and `MatchSound`/`MatchComplete` prove that it finds exactly the
 * regex's match.
 */
module DialogueParser {
  import opened Wrappers
  import opened Chars

  /** One dialogue turn, the dict `{'voice', 'voice_path', 'text'}` of the source. */
  datatype Turn = Turn(voice: string, voicePath: string, text: string)

  /** The two patterns the parser searches for. */
  datatype Pattern = Declaration | Utterance

  /**
   * One `finditer` match: its span, group 1 (the voice name), the quoted value
   * (group 2, or group 4 for a single-quoted utterance) and the opening quote.
   */
  datatype Hit = Hit(start: nat, end: nat, voice: string, value: string, quote: char)

  /** Split points of a match: the digits end at `a`, `=` sits at `b`, the quotes at `c` and `e`. */
  datatype Split = Split(a: nat, b: nat, c: nat, e: nat)

  datatype ParseError = FileNotFound | NoDialogueLines

  predicate IsQuote(c: char) { c == '"' || c == '\'' }

  /** The class of the quoted value: `[^"\']` in a declaration, `[^"]` or `[^']` in an utterance. */
  function ValueClass(pat: Pattern, q: char): CharClass
  {
    if pat.Declaration? then CharClass(true, false, false, false, "\"'") else CharClass(true, false, false, false, [q])
  }

  /** The closing quote: either quote in a declaration, the opening one in an utterance. */
  predicate Closes(pat: Pattern, q: char, x: char)
  {
    if pat.Declaration? then IsQuote(x) else x == q
  }

  /** Where `\s*=` starts: after `_wav` in a declaration, right after the digits in an utterance. */
  function KeyEnd(pat: Pattern, a: nat): nat
  {
    if pat.Declaration? then a + 4 else a
  }

  // ---------------------------------------------------------------------------------
  // The pattern, piece by piece: what a match looks like (regex membership) and the
  // scanner stage that finds that piece.
  // ---------------------------------------------------------------------------------

  /** `voice\d+` spans [p, a). */
  ghost predicate NameShape(s: string, p: nat, a: nat)
  {
    p + 5 < a <= |s| && StartsWith(s, p, "voice") && AllIn(s, p + 5, a, Digits)
  }

  /** `_wav\s*=` (declaration) or `\s*=` (utterance) from `a`, with `=` at `b`. */
  ghost predicate KeyShape(pat: Pattern, s: string, a: nat, b: nat)
  {
    KeyEnd(pat, a) <= b < |s| && (pat.Declaration? ==> StartsWith(s, a, "_wav"))
    && AllIn(s, KeyEnd(pat, a), b, Spaces) && s[b] == '='
  }

  /** `\s*` then a quote at `c`. */
  ghost predicate OpenShape(s: string, b: nat, c: nat)
  {
    b < c < |s| && AllIn(s, b + 1, c, Spaces) && IsQuote(s[c])
  }

  /** A non-empty value in (c, e) and the closing quote at `e`. */
  ghost predicate ValueShape(pat: Pattern, s: string, c: nat, e: nat)
  {
    c + 1 < e < |s| && AllIn(s, c + 1, e, ValueClass(pat, s[c])) && Closes(pat, s[c], s[e])
  }

  /** The content matches the pattern at `p`, with the pieces split at `sp`. */
  ghost predicate Shape(pat: Pattern, s: string, p: nat, sp: Split)
  {
    NameShape(s, p, sp.a) && KeyShape(pat, s, sp.a, sp.b) && OpenShape(s, sp.b, sp.c)
    && ValueShape(pat, s, sp.c, sp.e)
  }

  function NameEnd(s: string, p: nat): (r: Option<nat>)
    requires p <= |s|
    ensures r.Some? ==> p + 5 < r.value <= |s|
  {
    if p + 5 <= |s| && StartsWith(s, p, "voice") && Span(s, p + 5, Digits) > 0
    then Some(p + 5 + Span(s, p + 5, Digits)) else None
  }

  function EqualsSign(pat: Pattern, s: string, a: nat): (r: Option<nat>)
    requires a <= |s|
    ensures r.Some? ==> KeyEnd(pat, a) <= r.value < |s|
  {
    if pat.Declaration? && !(a + 4 <= |s| && StartsWith(s, a, "_wav")) then None
    else
      var b := KeyEnd(pat, a) + Span(s, KeyEnd(pat, a), Spaces);
      if b < |s| && s[b] == '=' then Some(b) else None
  }

  function OpeningQuote(s: string, b: nat): (r: Option<nat>)
    requires b < |s|
    ensures r.Some? ==> b < r.value < |s|
  {
    var c := b + 1 + Span(s, b + 1, Spaces);
    if c < |s| && IsQuote(s[c]) then Some(c) else None
  }

  function ClosingQuote(pat: Pattern, s: string, c: nat): (r: Option<nat>)
    requires c < |s|
    ensures r.Some? ==> c + 1 < r.value < |s|
  {
    var e := c + 1 + Span(s, c + 1, ValueClass(pat, s[c]));
    if e == c + 1 || e == |s| then None else Some(e)
  }

  lemma NameEndIff(s: string, p: nat, a: nat)
    requires p <= |s|
    ensures NameEnd(s, p) == Some(a) <==> NameShape(s, p, a) && (a == |s| || !IsDigit(s[a]))
  {
    if NameShape(s, p, a) && (a == |s| || !IsDigit(s[a])) {
      SpanExact(s, p + 5, a, Digits);
    }
    if p + 5 <= |s| {
      SpanMaximal(s, p + 5, Digits);
    }
  }

  lemma EqualsSignIff(pat: Pattern, s: string, a: nat, b: nat)
    requires a <= |s|
    ensures EqualsSign(pat, s, a) == Some(b) <==> KeyShape(pat, s, a, b)
  {
    if KeyShape(pat, s, a, b) {
      SpanExact(s, KeyEnd(pat, a), b, Spaces);
    }
    if KeyEnd(pat, a) <= |s| {
      SpanMaximal(s, KeyEnd(pat, a), Spaces);
    }
  }

  lemma OpeningQuoteIff(s: string, b: nat, c: nat)
    requires b < |s|
    ensures OpeningQuote(s, b) == Some(c) <==> OpenShape(s, b, c)
  {
    if OpenShape(s, b, c) {
      SpanExact(s, b + 1, c, Spaces);
    }
    SpanMaximal(s, b + 1, Spaces);
  }

  lemma ClosingQuoteIff(pat: Pattern, s: string, c: nat, e: nat)
    requires c < |s|
    ensures ClosingQuote(pat, s, c) == Some(e) <==> ValueShape(pat, s, c, e)
  {
    if ValueShape(pat, s, c, e) {
      SpanExact(s, c + 1, e, ValueClass(pat, s[c]));
    }
    SpanMaximal(s, c + 1, ValueClass(pat, s[c]));
  }

  /** The match object a split describes. */
  function HitOf(s: string, p: nat, sp: Split): Hit
    requires p <= sp.a <= sp.c && sp.c + 1 <= sp.e < |s|
  {
    Hit(p, sp.e + 1, s[p..sp.a], s[sp.c + 1..sp.e], s[sp.c])
  }

  /** The split the scanner finds at `p`, if the pattern matches there. */
  function ScanAt(pat: Pattern, s: string, p: nat): (r: Option<Split>)
    requires p <= |s|
    ensures r.Some? ==> p + 5 < r.value.a <= r.value.b < r.value.c && r.value.c + 1 < r.value.e < |s|
  {
    match NameEnd(s, p)
    case None => None
    case Some(a) =>
      match EqualsSign(pat, s, a)
      case None => None
      case Some(b) =>
        match OpeningQuote(s, b)
        case None => None
        case Some(c) =>
          match ClosingQuote(pat, s, c)
          case None => None
          case Some(e) => Some(Split(a, b, c, e))
  }

  /** The match of `pat` anchored at `p`, if any (one step of `re.finditer`). */
  function MatchAt(pat: Pattern, s: string, p: nat): (r: Option<Hit>)
    requires p <= |s|
    ensures r.Some? ==> r.value.start == p < r.value.end <= |s|
  {
    match ScanAt(pat, s, p)
    case None => None
    case Some(sp) => Some(HitOf(s, p, sp))
  }

  /** Whatever the scanner returns is a regex match at `p`. */
  lemma MatchSound(pat: Pattern, s: string, p: nat)
    requires p <= |s| && ScanAt(pat, s, p).Some?
    ensures Shape(pat, s, p, ScanAt(pat, s, p).value)
  {
    var sp := ScanAt(pat, s, p).value;
    NameEndIff(s, p, sp.a);
    EqualsSignIff(pat, s, sp.a, sp.b);
    OpeningQuoteIff(s, sp.b, sp.c);
    ClosingQuoteIff(pat, s, sp.c, sp.e);
  }

  /** Every regex match at `p` is the one the scanner returns: the match exists and is unique. */
  lemma MatchComplete(pat: Pattern, s: string, p: nat, sp: Split)
    requires Shape(pat, s, p, sp)
    ensures ScanAt(pat, s, p) == Some(sp)
  {
    assert sp.a == |s| || !IsDigit(s[sp.a]) by {
      if pat.Declaration? {
        assert s[sp.a] == '_';
      } else if sp.a < sp.b {
        assert In(Spaces, s[sp.a]);
      }
    }
    NameEndIff(s, p, sp.a);
    EqualsSignIff(pat, s, sp.a, sp.b);
    OpeningQuoteIff(s, sp.b, sp.c);
    ClosingQuoteIff(pat, s, sp.c, sp.e);
  }

  /** A value is non-empty and holds no instance of its delimiting quote (no quote at all in a declaration). */
  lemma MatchValue(pat: Pattern, s: string, p: nat, h: Hit)
    requires p <= |s| && MatchAt(pat, s, p) == Some(h)
    ensures h.value != [] && IsQuote(h.quote) && h.quote !in h.value
    ensures pat.Declaration? ==> '"' !in h.value && '\'' !in h.value
  {
    var sp := ScanAt(pat, s, p).value;
    MatchSound(pat, s, p);
    assert ValueShape(pat, s, sp.c, sp.e);
    assert h.value == s[sp.c + 1..sp.e] && h.quote == s[sp.c];
    forall i | 0 <= i < |h.value|
      ensures h.value[i] != h.quote
      ensures pat.Declaration? ==> !IsQuote(h.value[i])
    {
      assert h.value[i] == s[sp.c + 1 + i] && In(ValueClass(pat, h.quote), h.value[i]);
    }
  }

  /** The voice name of a match is `voice` followed by one or more digits. */
  lemma MatchVoice(pat: Pattern, s: string, p: nat, h: Hit)
    requires p <= |s| && MatchAt(pat, s, p) == Some(h)
    ensures |h.voice| > 5 && h.voice[..5] == "voice" && forall i :: 5 <= i < |h.voice| ==> IsDigit(h.voice[i])
  {
    var sp := ScanAt(pat, s, p).value;
    NameEndIff(s, p, sp.a);
    var v := h.voice;
    assert v == s[p..sp.a];
    StartsWithSlice(s, p, "voice");
    assert v[..5] == s[p..p + 5];
    forall i | 5 <= i < |v| ensures IsDigit(v[i]) {
      assert v[i] == s[p + i] && In(Digits, s[p + i]);
    }
  }

  /** A `voiceN_wav=` declaration never matches the utterance pattern at the same place. */
  lemma DeclarationIsNotUtterance(s: string, p: nat)
    requires p <= |s| && MatchAt(Declaration, s, p).Some?
    ensures MatchAt(Utterance, s, p).None?
  {
    var a := NameEnd(s, p).value;
    assert s[a] == '_';
    assert EqualsSign(Utterance, s, a).None?;
  }

  // ---------------------------------------------------------------------------------
  // re.finditer
  // ---------------------------------------------------------------------------------

  /**
   * A matcher anchored at each position of a text of length `n`: a match it finds at
   * `q` starts at `q`, is non-empty and ends within the text.
   */
  ghost predicate Anchored(m: nat -> Option<Hit>, n: nat)
  {
    forall q: nat :: q <= n && m(q).Some? ==> m(q).value.start == q < m(q).value.end <= n
  }

  /**
   * The loop of `re.finditer` from position `p` on, for any anchored matcher: take the match
   * at `p` and go on where it ends, or move one character on.
   */
  function Scan(m: nat -> Option<Hit>, n: nat, p: nat): seq<Hit>
    requires p <= n && Anchored(m, n)
    decreases n - p
  {
    if p == n then []
    else match m(p)
      case Some(h) => [h] + Scan(m, n, h.end)
      case None => Scan(m, n, p + 1)
  }

  /** Every match lies inside [lo, hi) and is non-empty. */
  ghost predicate Within(hits: seq<Hit>, lo: nat, hi: nat)
  {
    forall k :: 0 <= k < |hits| ==> lo <= hits[k].start < hits[k].end <= hi
  }

  /** Each match ends before the next one starts. */
  ghost predicate Disjoint(hits: seq<Hit>)
  {
    forall k :: 0 <= k < |hits| - 1 ==> hits[k].end <= hits[k + 1].start
  }

  /** The matches lie at or after `p`, are non-empty, and do not overlap. */
  lemma {:induction false} ScanOrdered(m: nat -> Option<Hit>, n: nat, p: nat)
    requires p <= n && Anchored(m, n)
    ensures Within(Scan(m, n, p), p, n) && Disjoint(Scan(m, n, p))
    decreases n - p
  {
    if p < n {
      match m(p)
      case Some(h) =>
        ScanOrdered(m, n, h.end);
        var rest := Scan(m, n, h.end);
        var hits := [h] + rest;
        assert Scan(m, n, p) == hits;
        forall k | 0 <= k < |hits| ensures p <= hits[k].start < hits[k].end <= n {
          if k > 0 {
            assert hits[k] == rest[k - 1];
          }
        }
        forall k | 0 <= k < |hits| - 1 ensures hits[k].end <= hits[k + 1].start {
          if k > 0 {
            assert hits[k] == rest[k - 1];
          }
          assert hits[k + 1] == rest[k];
        }
      case None =>
        ScanOrdered(m, n, p + 1);
    }
  }

  /** Every returned match is the matcher's match at its own start. */
  lemma {:induction false} ScanSound(m: nat -> Option<Hit>, n: nat, p: nat, k: nat)
    requires p <= n && Anchored(m, n) && k < |Scan(m, n, p)|
    ensures Scan(m, n, p)[k].start < n && m(Scan(m, n, p)[k].start) == Some(Scan(m, n, p)[k])
    decreases n - p
  {
    match m(p)
    case Some(h) =>
      var rest := Scan(m, n, h.end);
      assert Scan(m, n, p) == [h] + rest;
      if k > 0 {
        ScanSound(m, n, h.end, k - 1);
        assert Scan(m, n, p)[k] == rest[k - 1];
      }
    case None =>
      ScanSound(m, n, p + 1, k);
  }

  /** No match is skipped: every position where the matcher succeeds lies inside returned match `k`. */
  lemma {:induction false} ScanComplete(m: nat -> Option<Hit>, n: nat, p: nat, q: nat) returns (k: nat)
    requires p <= q < n && Anchored(m, n) && m(q).Some?
    ensures k < |Scan(m, n, p)| && Scan(m, n, p)[k].start <= q < Scan(m, n, p)[k].end
    decreases n - p
  {
    var hits := Scan(m, n, p);
    match m(p)
    case Some(h) =>
      var rest := Scan(m, n, h.end);
      assert hits == [h] + rest;
      if q < h.end {
        k := 0;
      } else {
        var k' := ScanComplete(m, n, h.end, q);
        k := k' + 1;
        assert hits[k] == rest[k'];
      }
    case None =>
      assert hits == Scan(m, n, p + 1);
      k := ScanComplete(m, n, p + 1, q);
  }

  /** The pattern's anchored matcher over the content. */
  function Matcher(pat: Pattern, s: string): (m: nat -> Option<Hit>)
    ensures Anchored(m, |s|)
  {
    (q: nat) => if q <= |s| then MatchAt(pat, s, q) else None
  }

  /** `re.finditer(pattern, content)`: the non-overlapping matches, left to right. */
  function FindIter(pat: Pattern, s: string): seq<Hit>
  {
    Scan(Matcher(pat, s), |s|, 0)
  }

  /** The matches are non-empty, within the content, and do not overlap. */
  lemma FindIterOrdered(pat: Pattern, s: string)
    ensures Within(FindIter(pat, s), 0, |s|) && Disjoint(FindIter(pat, s))
  {
    ScanOrdered(Matcher(pat, s), |s|, 0);
  }

  /** Every returned match is the pattern's match at its own start. */
  lemma FindIterSound(pat: Pattern, s: string, k: nat)
    requires k < |FindIter(pat, s)|
    ensures FindIter(pat, s)[k].start < |s| && MatchAt(pat, s, FindIter(pat, s)[k].start) == Some(FindIter(pat, s)[k])
  {
    ScanSound(Matcher(pat, s), |s|, 0, k);
  }

  /** No match is skipped: every position where the pattern matches lies inside returned match `k`. */
  lemma FindIterComplete(pat: Pattern, s: string, q: nat) returns (k: nat)
    requires q < |s| && MatchAt(pat, s, q).Some?
    ensures k < |FindIter(pat, s)| && FindIter(pat, s)[k].start <= q < FindIter(pat, s)[k].end
  {
    k := ScanComplete(Matcher(pat, s), |s|, 0, q);
  }

  // ---------------------------------------------------------------------------------
  // The voice table
  // ---------------------------------------------------------------------------------

  /** The dict `voice_paths` after the loop over the declarations: a later declaration overwrites. */
  function VoiceTable(decls: seq<Hit>): map<string, string>
  {
    if decls == [] then map[]
    else
      var last := decls[|decls| - 1];
      VoiceTable(decls[..|decls| - 1])[last.voice := last.value]
  }

  /** Index of the last declaration of `v`, or -1 when there is none. */
  function LastDeclaration(decls: seq<Hit>, v: string): (i: int)
    ensures -1 <= i < |decls|
    ensures i >= 0 ==> decls[i].voice == v
    ensures forall j :: i < j < |decls| ==> decls[j].voice != v
  {
    if decls == [] then -1
    else if decls[|decls| - 1].voice == v then |decls| - 1
    else LastDeclaration(decls[..|decls| - 1], v)
  }

  /** The table holds exactly the declared voices, each bound to the value of its last declaration. */
  lemma {:induction false} VoiceTableLastWins(decls: seq<Hit>, v: string)
    ensures v in VoiceTable(decls) <==> LastDeclaration(decls, v) >= 0
    ensures v in VoiceTable(decls) ==> VoiceTable(decls)[v] == decls[LastDeclaration(decls, v)].value
  {
    if decls != [] {
      VoiceTableLastWins(decls[..|decls| - 1], v);
    }
  }

  /** `_extract_voice_paths`: fills the table in a loop over the declaration matches. */
  method ExtractVoicePaths(content: string) returns (voicePaths: map<string, string>)
    ensures voicePaths == VoiceTable(FindIter(Declaration, content))
  {
    var hits := FindIter(Declaration, content);
    voicePaths := map[];
    for k := 0 to |hits|
      invariant voicePaths == VoiceTable(hits[..k])
    {
      assert hits[..k + 1][..k] == hits[..k];
      voicePaths := voicePaths[hits[k].voice := hits[k].value];
    }
    assert hits[..|hits|] == hits;
  }

  /** The voice table of the whole content. */
  function ContentVoices(content: string): map<string, string>
  {
    VoiceTable(FindIter(Declaration, content))
  }

  /** Every entry of the table is a `voice<digits>` name bound to a non-empty, quote-free path. */
  lemma VoiceTableWellFormed(content: string, v: string)
    requires v in ContentVoices(content)
    ensures |v| > 5 && v[..5] == "voice" && forall i :: 5 <= i < |v| ==> IsDigit(v[i])
    ensures var path := ContentVoices(content)[v]; path != [] && '"' !in path && '\'' !in path
  {
    var decls := FindIter(Declaration, content);
    VoiceTableLastWins(decls, v);
    var i := LastDeclaration(decls, v);
    FindIterSound(Declaration, content, i);
    MatchValue(Declaration, content, decls[i].start, decls[i]);
    MatchVoice(Declaration, content, decls[i].start, decls[i]);
  }

  // ---------------------------------------------------------------------------------
  // The turns
  // ---------------------------------------------------------------------------------

  /** The utterance matches whose voice is declared, in their original order. */
  function KeptHits(hits: seq<Hit>, voicePaths: map<string, string>): seq<Hit>
  {
    if hits == [] then []
    else
      var last := hits[|hits| - 1];
      KeptHits(hits[..|hits| - 1], voicePaths) + (if last.voice in voicePaths then [last] else [])
  }

  /** Filtering keeps exactly the matches whose voice the table knows. */
  lemma {:induction false} KeptHitsMembers(hits: seq<Hit>, voicePaths: map<string, string>, h: Hit)
    ensures h in KeptHits(hits, voicePaths) <==> h in hits && h.voice in voicePaths
  {
    if hits != [] {
      var init := hits[..|hits| - 1];
      KeptHitsMembers(init, voicePaths, h);
      assert hits == init + [hits[|hits| - 1]];
    }
  }

  /** Filtering keeps the left-to-right order of the matches. */
  lemma {:induction false} KeptHitsInOrder(hits: seq<Hit>, s: string, voicePaths: map<string, string>)
    requires Within(hits, 0, |s|) && Disjoint(hits)
    ensures StartsIncreasing(KeptHits(hits, voicePaths))
  {
    if hits != [] {
      var init := hits[..|hits| - 1];
      var last := hits[|hits| - 1];
      KeptHitsInOrder(init, s, voicePaths);
      var kept := KeptHits(init, voicePaths);
      if last.voice in voicePaths && kept != [] {
        KeptHitsMembers(init, voicePaths, kept[|kept| - 1]);
        var j :| 0 <= j < |init| && init[j] == kept[|kept| - 1];
        assert hits[j] == init[j];
        StartsIncrease(hits, s, j, |hits| - 1);
        var all := kept + [last];
        forall k | 0 <= k < |all| - 1 ensures all[k].start < all[k + 1].start {
          if k + 1 < |kept| {
            assert all[k] == kept[k] && all[k + 1] == kept[k + 1];
          }
        }
      }
    }
  }

  /** The matches start strictly left to right. */
  ghost predicate StartsIncreasing(hits: seq<Hit>)
  {
    forall k :: 0 <= k < |hits| - 1 ==> hits[k].start < hits[k + 1].start
  }

  lemma {:induction false} StartsIncrease(hits: seq<Hit>, s: string, i: nat, j: nat)
    requires Within(hits, 0, |s|) && Disjoint(hits)
    requires i < j < |hits|
    ensures hits[i].start < hits[j].start
    decreases j - i
  {
    if i + 1 < j {
      StartsIncrease(hits, s, i + 1, j);
    }
  }

  /** The turns of the matches whose voice is declared, with the declared path. */
  function Resolve(hits: seq<Hit>, voicePaths: map<string, string>): seq<Turn>
  {
    if hits == [] then []
    else
      var h := hits[|hits| - 1];
      Resolve(hits[..|hits| - 1], voicePaths)
        + (if h.voice in voicePaths then [Turn(h.voice, voicePaths[h.voice], h.value)] else [])
  }

  /** Turn k is built from kept match k, with the path the table gives its voice. */
  lemma {:induction false} ResolveIsKept(hits: seq<Hit>, voicePaths: map<string, string>)
    ensures |Resolve(hits, voicePaths)| == |KeptHits(hits, voicePaths)|
    ensures forall k :: 0 <= k < |KeptHits(hits, voicePaths)| ==>
      var h := KeptHits(hits, voicePaths)[k];
      h.voice in voicePaths && Resolve(hits, voicePaths)[k] == Turn(h.voice, voicePaths[h.voice], h.value)
  {
    if hits != [] {
      ResolveIsKept(hits[..|hits| - 1], voicePaths);
    }
  }

  /** The turns `_extract_dialogue_lines` returns for the whole content. */
  function DialogueTurns(content: string): seq<Turn>
  {
    Resolve(FindIter(Utterance, content), ContentVoices(content))
  }

  /** `_extract_dialogue_lines`: appends, in match order, every utterance whose voice is declared. */
  method ExtractDialogueLines(content: string, voicePaths: map<string, string>) returns (lines: seq<Turn>)
    ensures lines == Resolve(FindIter(Utterance, content), voicePaths)
  {
    var hits := FindIter(Utterance, content);
    lines := [];
    for k := 0 to |hits|
      invariant lines == Resolve(hits[..k], voicePaths)
    {
      assert hits[..k + 1][..k] == hits[..k];
      var h := hits[k];
      if h.voice in voicePaths {
        lines := lines + [Turn(h.voice, voicePaths[h.voice], h.value)];
      }
    }
    assert hits[..|hits|] == hits;
  }

  /** A turn whose text has fewer than three characters once surrounding whitespace is stripped. */
  predicate IsShort(t: Turn)
  {
    |Strip(t.text)| < 3
  }

  /** The 1-based numbers of the turns whose stripped text is shorter than three characters. */
  function ShortLines(lines: seq<Turn>): seq<nat>
  {
    if lines == [] then []
    else
      ShortLines(lines[..|lines| - 1]) + (if IsShort(lines[|lines| - 1]) then [|lines|] else [])
  }

  /** Line `i` is warned about exactly when its stripped text is shorter than three characters. */
  lemma {:induction false} ShortLinesMembers(lines: seq<Turn>, i: int)
    ensures i in ShortLines(lines) <==> 1 <= i <= |lines| && IsShort(lines[i - 1])
  {
    if lines != [] {
      var init := lines[..|lines| - 1];
      ShortLinesMembers(init, i);
      if 1 <= i <= |init| {
        assert init[i - 1] == lines[i - 1];
      }
    }
  }

  /** The warned line numbers are in increasing order, so each line is warned about at most once. */
  lemma {:induction false} ShortLinesIncreasing(lines: seq<Turn>)
    ensures var w := ShortLines(lines); forall k :: 0 <= k < |w| - 1 ==> w[k] < w[k + 1]
  {
    if lines != [] {
      var init := lines[..|lines| - 1];
      var w := ShortLines(init);
      ShortLinesIncreasing(init);
      if IsShort(lines[|lines| - 1]) {
        var all := w + [|lines|];
        assert ShortLines(lines) == all;
        if w != [] {
          ShortLinesMembers(init, w[|w| - 1]);
        }
        forall k | 0 <= k < |all| - 1 ensures all[k] < all[k + 1] {
          if k + 1 < |w| {
            assert all[k] == w[k] && all[k + 1] == w[k + 1];
          }
        }
      } else {
        assert ShortLines(lines) == w;
      }
    }
  }

  /** The loop of `parse_dialogue_file` that logs a warning for every short line and goes on. */
  method WarnShortLines(lines: seq<Turn>) returns (warnings: seq<nat>)
    ensures warnings == ShortLines(lines)
  {
    warnings := [];
    for i := 1 to |lines| + 1
      invariant warnings == ShortLines(lines[..i - 1])
    {
      assert lines[..i][..i - 1] == lines[..i - 1];
      if IsShort(lines[i - 1]) {
        warnings := warnings + [i];
      }
    }
    assert lines[..|lines|] == lines;
  }

  /** What `parse_dialogue_file` returns or raises, given the file's content (None: no such file). */
  function ParseDialogue(file: Option<string>): Result<seq<Turn>, ParseError>
  {
    match file
    case None => Err(FileNotFound)
    case Some(content) =>
      var lines := DialogueTurns(content);
      if lines == [] then Err(NoDialogueLines) else Ok(lines)
  }

  /**
   * `parse_dialogue_file`: both extraction passes, the empty-result check, then the loop
   * that warns (and only warns) about short lines; `warnings` are the warned line numbers.
   */
  method ParseDialogueFile(file: Option<string>) returns (r: Result<seq<Turn>, ParseError>, warnings: seq<nat>)
    ensures r == ParseDialogue(file)
    ensures r.Ok? ==> warnings == ShortLines(r.value)
    ensures r.Err? ==> warnings == []
  {
    warnings := [];
    if file.None? {
      return Err(FileNotFound), warnings;
    }
    var content := file.value;
    var voicePaths := ExtractVoicePaths(content);
    var lines := ExtractDialogueLines(content, voicePaths);
    if |lines| == 0 {
      return Err(NoDialogueLines), warnings;
    }
    warnings := WarnShortLines(lines);
    r := Ok(lines);
  }

  // ---------------------------------------------------------------------------------
  // What the parse result promises
  // ---------------------------------------------------------------------------------

  /** Every returned turn carries the path the voice table gives its voice, and a non-empty text. */
  lemma TurnsResolved(content: string, k: nat)
    requires k < |DialogueTurns(content)|
    ensures var t := DialogueTurns(content)[k];
      t.voice in ContentVoices(content) && t.voicePath == ContentVoices(content)[t.voice] && t.text != []
  {
    var hits := FindIter(Utterance, content);
    var voices := ContentVoices(content);
    ResolveIsKept(hits, voices);
    var h := KeptHits(hits, voices)[k];
    KeptHitsMembers(hits, voices, h);
    var j :| 0 <= j < |hits| && hits[j] == h;
    FindIterSound(Utterance, content, j);
    MatchValue(Utterance, content, h.start, h);
  }

  /**
   * An utterance match becomes a turn exactly when its voice is declared somewhere in the
   * content, before or after it; an undeclared voice is dropped without an error.
   */
  lemma ResolutionIgnoresPosition(content: string, h: Hit)
    requires h in FindIter(Utterance, content)
    ensures h in KeptHits(FindIter(Utterance, content), ContentVoices(content))
      <==> exists d :: d in FindIter(Declaration, content) && d.voice == h.voice
  {
    var decls := FindIter(Declaration, content);
    KeptHitsMembers(FindIter(Utterance, content), ContentVoices(content), h);
    VoiceTableLastWins(decls, h.voice);
    if exists d :: d in decls && d.voice == h.voice {
      var d :| d in decls && d.voice == h.voice;
      var i :| 0 <= i < |decls| && decls[i] == d;
      assert LastDeclaration(decls, h.voice) >= i;
    }
    if h.voice in ContentVoices(content) {
      assert decls[LastDeclaration(decls, h.voice)] in decls;
    }
  }

  /** The returned turns come from matches that start strictly left to right in the content. */
  lemma TurnsInContentOrder(content: string)
    ensures var kept := KeptHits(FindIter(Utterance, content), ContentVoices(content));
      && |DialogueTurns(content)| == |kept|
      && StartsIncreasing(kept)
      && forall k :: 0 <= k < |kept| ==>
           DialogueTurns(content)[k].voice == kept[k].voice && DialogueTurns(content)[k].text == kept[k].value
  {
    var hits := FindIter(Utterance, content);
    FindIterOrdered(Utterance, content);
    KeptHitsInOrder(hits, content, ContentVoices(content));
    ResolveIsKept(hits, ContentVoices(content));
  }

  /** No turns is an error, raised before any warning; otherwise every turn is returned, short or not. */
  lemma EmptyIsError(content: string)
    ensures ParseDialogue(Some(content)).Err? <==> DialogueTurns(content) == []
    ensures ParseDialogue(Some(content)).Ok? ==> ParseDialogue(Some(content)).value == DialogueTurns(content)
  {
  }
}
