/**
 * `VoicePipeline` of app/voice_pipeline.py: one line of dialogue turned into a clip
 * (`generate_line`), the pauses between lines (`create_silence`), the assembly of a whole
 * dialogue into one master file (`dialogue_to_audio`) and the per-line file names
 * (`_save_individual_line`). The text-to-speech engine and the audio filters are functions
 * given from outside; the files written are kept as a log.
 */
module VoicePipeline {
  import opened Wrappers
  import opened Chars
  import TextNormalizer
  import AudioProcessor
  import DialogueParser

  type Turn = DialogueParser.Turn

  // ---------------------------------------------------------------------------------
  // Per-line file names
  // ---------------------------------------------------------------------------------

  /** Characters `[\w\s-]` keeps. */
  predicate SlugKeeps(c: char) { IsWordChar(c) || IsSpace(c) || c == '-' }

  /** `re.sub(r'[^\w\s-]', '', s)`: every character outside `[\w\s-]` removed. */
  function KeepSlugChars(s: string): string
  {
    if s == [] then [] else (if SlugKeeps(s[0]) then [s[0]] else []) + KeepSlugChars(s[1..])
  }

  /** Removing characters never lengthens the text. */
  lemma {:induction false} KeepSlugCharsShorter(s: string)
    ensures |KeepSlugChars(s)| <= |s|
  {
    if s != [] {
      KeepSlugCharsShorter(s[1..]);
    }
  }

  /** A character survives exactly when it occurs in the text and belongs to `[\w\s-]`. */
  lemma {:induction false} KeepSlugCharsMembers(s: string, c: char)
    ensures c in KeepSlugChars(s) <==> c in s && SlugKeeps(c)
  {
    if s != [] {
      KeepSlugCharsMembers(s[1..], c);
      assert s == [s[0]] + s[1..];
    }
  }

  /** `re.sub(r'\s+', '_', s)`: every run of whitespace becomes one underscore. */
  function Underscore(s: string): string
    decreases |s|
  {
    if s == [] then []
    else if IsSpace(s[0]) then
      var n := Span(s, 0, Spaces);
      assert n >= 1;
      "_" + Underscore(s[n..])
    else [s[0]] + Underscore(s[1..])
  }

  /**
   * The result is no longer than the text and holds no whitespace; every character is an
   * underscore or one of the text's.
   */
  lemma {:induction false} UnderscoreFacts(s: string)
    ensures |Underscore(s)| <= |s|
    ensures forall i :: 0 <= i < |Underscore(s)| ==> !IsSpace(Underscore(s)[i]) && (Underscore(s)[i] == '_' || Underscore(s)[i] in s)
    decreases |s|
  {
    if s != [] {
      if IsSpace(s[0]) {
        var n := Span(s, 0, Spaces);
        UnderscoreFacts(s[n..]);
        var r := Underscore(s[n..]);
        assert Underscore(s) == "_" + r;
        forall i | 0 <= i < |r| ensures r[i] == '_' || r[i] in s {
          if r[i] != '_' {
            assert r[i] in s[n..];
          }
        }
      } else {
        UnderscoreFacts(s[1..]);
        var r := Underscore(s[1..]);
        assert Underscore(s) == [s[0]] + r;
        forall i | 0 <= i < |r| ensures r[i] == '_' || r[i] in s {
          if r[i] != '_' {
            assert r[i] in s[1..];
          }
        }
      }
    }
  }

  /** Text without whitespace goes through unchanged; text with whitespace gains an underscore. */
  lemma {:induction false} UnderscoreSpaces(s: string)
    ensures (forall i :: 0 <= i < |s| ==> !IsSpace(s[i])) ==> Underscore(s) == s
    ensures (exists i :: 0 <= i < |s| && IsSpace(s[i])) ==> '_' in Underscore(s)
    decreases |s|
  {
    if s != [] {
      if IsSpace(s[0]) {
        assert "_"[0] == '_';
      } else {
        UnderscoreSpaces(s[1..]);
        assert s == [s[0]] + s[1..];
        if exists i :: 0 <= i < |s| && IsSpace(s[i]) {
          var i :| 0 <= i < |s| && IsSpace(s[i]);
          assert IsSpace(s[1..][i - 1]);
        }
      }
    }
  }

  /** The slug of a line: its first 30 characters, cleaned and with whitespace runs as `_`. */
  function Slug(text: string): string
  {
    Underscore(KeepSlugChars(text[..if |text| < 30 then |text| else 30]))
  }

  /**
   * A slug has no whitespace, is at most 30 characters long and holds only word characters
   * and dashes; it may be empty.
   */
  lemma SlugFacts(text: string)
    ensures |Slug(text)| <= 30
    ensures forall i :: 0 <= i < |Slug(text)| ==> !IsSpace(Slug(text)[i])
    ensures forall i :: 0 <= i < |Slug(text)| ==> IsWordChar(Slug(text)[i]) || Slug(text)[i] == '-'
  {
    var cut := text[..if |text| < 30 then |text| else 30];
    var k := KeepSlugChars(cut);
    var r := Underscore(k);
    KeepSlugCharsShorter(cut);
    UnderscoreFacts(k);
    forall i | 0 <= i < |r|
      ensures IsWordChar(r[i]) || r[i] == '-'
    {
      if r[i] != '_' {
        KeepSlugCharsMembers(cut, r[i]);
      }
    }
  }

  /** The decimal digit for `d`. */
  function DigitChar(d: nat): (c: char)
    requires d < 10
    ensures IsDigit(c)
  {
    ('0' as int + d) as char
  }

  /** `str(n)`: the decimal digits of `n`, most significant first. */
  function Decimal(n: nat): (r: string)
    ensures |r| >= 1
  {
    if n < 10 then [DigitChar(n)] else Decimal(n / 10) + [DigitChar(n % 10)]
  }

  /** The number a string of decimal digits denotes (`int(s)` on digits). */
  function Value(s: string): int
  {
    if s == [] then 0 else Value(s[..|s| - 1]) * 10 + (s[|s| - 1] as int - '0' as int)
  }

  /** `str(n)` is made of decimal digits only. */
  lemma {:induction false} DecimalDigits(n: nat)
    ensures forall i :: 0 <= i < |Decimal(n)| ==> IsDigit(Decimal(n)[i])
  {
    if n >= 10 {
      DecimalDigits(n / 10);
    }
  }

  /** Reading back the digits of `n` gives `n`. */
  lemma {:induction false} DecimalValue(n: nat)
    ensures Value(Decimal(n)) == n
  {
    if n >= 10 {
      DecimalValue(n / 10);
      var r := Decimal(n);
      assert r[..|r| - 1] == Decimal(n / 10);
    }
  }

  /** Numbers below 1000 take at most three digits, larger ones more. */
  lemma {:induction false} DecimalLength(n: nat)
    ensures n < 1000 <==> |Decimal(n)| <= 3
  {
    if n >= 10 {
      DecimalLength(n / 10);
    }
  }

  function Zeros(k: nat): (r: string)
    ensures |r| == k
  {
    if k == 0 then [] else Zeros(k - 1) + "0"
  }

  /** `f"{n:03d}"`: the decimal digits of `n`, padded with leading zeros to three. */
  function Pad3(n: nat): string
  {
    var d := Decimal(n);
    Zeros(if |d| < 3 then 3 - |d| else 0) + d
  }

  lemma {:induction false} ValueAppend(a: string, b: string)
    ensures Value(a + b) == Value(a) * Pow10(|b|) + Value(b)
    decreases |b|
  {
    if b == [] {
      assert a + b == a;
    } else {
      var b' := b[..|b| - 1];
      assert (a + b)[..|a + b| - 1] == a + b';
      ValueAppend(a, b');
    }
  }

  function Pow10(k: nat): nat
  {
    if k == 0 then 1 else 10 * Pow10(k - 1)
  }

  lemma {:induction false} ZerosValue(k: nat)
    ensures Value(Zeros(k)) == 0
    ensures forall i :: 0 <= i < k ==> Zeros(k)[i] == '0'
  {
    if k > 0 {
      ZerosValue(k - 1);
      assert Zeros(k)[..k - 1] == Zeros(k - 1);
    }
  }

  /**
   * The padded index is exactly three digits below 1000 and the plain digits from there on,
   * and it reads back as the index.
   */
  lemma Pad3Facts(n: nat)
    ensures forall i :: 0 <= i < |Pad3(n)| ==> IsDigit(Pad3(n)[i])
    ensures Value(Pad3(n)) == n
    ensures n < 1000 <==> |Pad3(n)| == 3
    ensures |Pad3(n)| >= 3
  {
    var d := Decimal(n);
    var z := Zeros(if |d| < 3 then 3 - |d| else 0);
    assert Pad3(n) == z + d;
    DecimalLength(n);
    Pad3Digits(z, d, n);
    DecimalValue(n);
    ZerosValue(|z|);
    ValueAppend(z, d);
    assert Value(z + d) == Value(d);
  }

  lemma Pad3Digits(z: string, d: string, n: nat)
    requires z == Zeros(|z|) && d == Decimal(n)
    ensures forall i :: 0 <= i < |z + d| ==> IsDigit((z + d)[i])
  {
    DecimalDigits(n);
    ZerosValue(|z|);
  }

  /** `f"{index:03d}_{voice}_{slug}.wav"`. */
  function Filename(index: nat, voice: string, text: string): string
  {
    Pad3(index) + "_" + voice + "_" + Slug(text) + ".wav"
  }

  /** The index is read off the name up to its first underscore. */
  lemma FilenameIndex(index: nat, voice: string, text: string)
    ensures var name := Filename(index, voice, text);
      && |Pad3(index)| < |name| && name[|Pad3(index)|] == '_'
      && name[..|Pad3(index)|] == Pad3(index)
      && forall i :: 0 <= i < |Pad3(index)| ==> name[i] != '_'
  {
    Pad3Facts(index);
  }

  /** Lines with different indices are saved under different names. */
  lemma FilenamesDistinct(i: nat, j: nat, v: string, w: string, t: string, u: string)
    requires i != j
    ensures Filename(i, v, t) != Filename(j, w, u)
  {
    FilenameIndex(i, v, t);
    FilenameIndex(j, w, u);
    Pad3Facts(i);
    Pad3Facts(j);
  }

  // ---------------------------------------------------------------------------------
  // generate_line and create_silence
  // ---------------------------------------------------------------------------------

  /** The options `dialogue_to_audio` passes on to every `generate_line` call. */
  datatype Settings = Settings(language: string, exaggeration: real, cfgWeight: real, processAudio: bool, normalizeText: bool)

  /** One call of the engine's `generate`. */
  datatype Request = Request(text: string, voicePath: string, language: string, exaggeration: real, cfgWeight: real)

  /**
   * The engine: its sample rate, its `generate` (`None` when it raises) and the filters
   * `process_line` uses.
   */
  datatype Engine = Engine(sampleRate: int, generate: Request -> Option<seq<real>>, filters: AudioProcessor.Filters)

  /** The exceptions the pipeline raises. */
  datatype Failure = TextTooShort(text: string) | EngineFailed(request: Request) | NegativeSilence(samples: int) | EmptyDialogue

  /** One `ta.save`: the path written and the samples saved there. */
  datatype SavedFile = SavedFile(path: string, audio: seq<real>)

  /** The text sent to the engine: only the email pass of `normalize_text`, when enabled. */
  function SpokenText(text: string, normalize: bool): string
  {
    if normalize then TextNormalizer.NormalizeEmail(text) else text
  }

  /** The guard of `generate_line`: fewer than three characters once stripped. */
  predicate TooShort(text: string) { |Strip(text)| < 3 }

  function LineRequest(text: string, voicePath: string, s: Settings): Request
  {
    Request(SpokenText(text, s.normalizeText), voicePath, s.language, s.exaggeration, s.cfgWeight)
  }

  /** The engine calls `generate_line` makes: none when the guard fires, else one. */
  function LineRequests(text: string, voicePath: string, s: Settings): seq<Request>
  {
    if TooShort(SpokenText(text, s.normalizeText)) then [] else [LineRequest(text, voicePath, s)]
  }

  /** `process_line` with all four stages on, as `generate_line` calls it. */
  function Processed(e: Engine, wav: seq<real>): seq<real>
  {
    AudioProcessor.RunStages(AudioProcessor.EnabledStages(true, true, true, true), e.filters, wav, e.sampleRate)
  }

  /** The clip `generate_line` returns, or the exception it raises. */
  function LineAudio(e: Engine, text: string, voicePath: string, s: Settings): Result<seq<real>, Failure>
  {
    var spoken := SpokenText(text, s.normalizeText);
    if TooShort(spoken) then Err(TextTooShort(spoken))
    else
      match e.generate(LineRequest(text, voicePath, s))
      case None => Err(EngineFailed(LineRequest(text, voicePath, s)))
      case Some(wav) => Ok(if s.processAudio then Processed(e, wav) else wav)
  }

  /**
   * The length guard looks at the normalised text and fires before the engine is called:
   * the line fails as too short exactly when that text strips to under three characters,
   * and exactly then no request is made.
   */
  lemma GuardBeforeEngine(e: Engine, text: string, voicePath: string, s: Settings)
    ensures var r := LineAudio(e, text, voicePath, s);
      && (r.Err? && r.error.TextTooShort? <==> TooShort(SpokenText(text, s.normalizeText)))
      && (LineRequests(text, voicePath, s) == [] <==> TooShort(SpokenText(text, s.normalizeText)))
      && (r.Ok? ==> LineRequests(text, voicePath, s) == [LineRequest(text, voicePath, s)])
  {
  }

  /**
   * `strip()` removes Python's whitespace, which includes the separators U+1C to U+1F:
   * two of them before `ab` leave two characters, and the guard fires.
   */
  lemma SeparatorsAreStripped(s: string)
    requires s == "\U{1C}\U{1C}ab"
    ensures Strip(s) == "ab" && TooShort(s)
  {
    assert Span(s, 2, Spaces) == 0;
    assert Span(s, 1, Spaces) == 1;
    assert Span(s, 0, Spaces) == 2;
    assert StripStart(s) == "ab";
  }

  /** Without post-processing the clip is the engine's output as it is. */
  lemma UnprocessedIsEngineOutput(e: Engine, text: string, voicePath: string, s: Settings)
    requires !s.processAudio && !TooShort(SpokenText(text, s.normalizeText))
    ensures LineAudio(e, text, voicePath, s) == match e.generate(LineRequest(text, voicePath, s))
      case None => Err(EngineFailed(LineRequest(text, voicePath, s)))
      case Some(wav) => Ok(wav)
  {
  }

  /** Post-processing ends with the fade, so a processed clip is a faded clip. */
  lemma ProcessedIsFaded(e: Engine, wav: seq<real>) returns (x: seq<real>)
    ensures Processed(e, wav) == AudioProcessor.FadeClip(x, e.sampleRate)
  {
    AudioProcessor.EnabledRun(true, true, true, true, e.filters, wav, e.sampleRate);
    var f := e.filters;
    x := f.normalizeRms(f.deEss(f.highPass(wav, e.sampleRate), e.sampleRate));
  }

  /** `int(sample_rate * ms / 1000)`. */
  function SilenceLength(sampleRate: int, ms: int): int
  {
    AudioProcessor.MsToSamples(sampleRate, ms)
  }

  function Quiet(n: nat): (r: seq<real>)
  {
    seq(n, _ => 0.0)
  }

  /** `create_silence`: `torch.zeros(1, n)`, which raises for a negative `n`. */
  function Silence(sampleRate: int, ms: int): Result<seq<real>, Failure>
  {
    var n := SilenceLength(sampleRate, ms);
    if n < 0 then Err(NegativeSilence(n)) else Ok(Quiet(n))
  }

  /**
   * Silence is all zeros, `int(sample_rate * ms / 1000)` samples long; a non-negative
   * duration at a non-negative rate never fails.
   */
  lemma SilenceFacts(sampleRate: int, ms: int)
    ensures Silence(sampleRate, ms).Ok? <==> SilenceLength(sampleRate, ms) >= 0
    ensures sampleRate >= 0 && ms >= 0 ==> Silence(sampleRate, ms).Ok?
    ensures Silence(sampleRate, ms).Ok? ==>
      |Silence(sampleRate, ms).value| == SilenceLength(sampleRate, ms)
      && forall i :: 0 <= i < |Silence(sampleRate, ms).value| ==> Silence(sampleRate, ms).value[i] == 0.0
    ensures 1000 <= sampleRate && ms < 0 ==> Silence(sampleRate, ms).Err?
  {
  }

  // ---------------------------------------------------------------------------------
  // dialogue_to_audio
  // ---------------------------------------------------------------------------------

  /** The arguments of one `dialogue_to_audio` call. */
  datatype Job = Job(outputDir: string, prefix: string, turns: seq<Turn>, silenceMs: int, settings: Settings, saveIndividual: bool)

  /**
   * pathlib's `/` on POSIX: a right operand that starts with `/` is absolute and replaces
   * the left one; any other is joined to it with a `/`.
   */
  function JoinPath(dir: string, name: string): string
  {
    if name != [] && name[0] == '/' then name else dir + "/" + name
  }

  /** `OUTPUT_DIR / f"{output_prefix}.wav"` */
  function MasterPath(job: Job): string
  {
    JoinPath(job.outputDir, job.prefix + ".wav")
  }

  /** `OUTPUT_DIR / f"{output_prefix}_lines"` */
  function LinesFolder(job: Job): string
  {
    JoinPath(job.outputDir, job.prefix + "_lines")
  }

  /** Where line `index` (counted from 1) is saved. */
  function LinePath(job: Job, index: nat, turn: Turn): string
  {
    JoinPath(LinesFolder(job), Filename(index, turn.voice, turn.text))
  }

  /** Where the prefix starts in both paths: after `OUTPUT_DIR/`, or at 0 when it is absolute. */
  function PrefixStart(job: Job): nat
  {
    if job.prefix != [] && job.prefix[0] == '/' then 0 else |job.outputDir| + 1
  }

  /**
   * A relative prefix puts both outputs under the output directory; an absolute one drops
   * the directory and names the files itself.
   */
  lemma OutputPaths(job: Job)
    ensures var k := PrefixStart(job);
      && MasterPath(job) == MasterPath(job)[..k] + job.prefix + ".wav"
      && LinesFolder(job) == LinesFolder(job)[..k] + job.prefix + "_lines"
    ensures job.prefix != [] && job.prefix[0] == '/' ==>
      MasterPath(job) == job.prefix + ".wav" && LinesFolder(job) == job.prefix + "_lines"
    ensures !(job.prefix != [] && job.prefix[0] == '/') ==>
      MasterPath(job)[..|job.outputDir| + 1] == job.outputDir + "/"
      && LinesFolder(job)[..|job.outputDir| + 1] == job.outputDir + "/"
  {
    var k := PrefixStart(job);
    if k == 0 {
      assert MasterPath(job)[..k] == [] && LinesFolder(job)[..k] == [];
    } else {
      assert MasterPath(job) == (job.outputDir + "/") + (job.prefix + ".wav");
      assert LinesFolder(job) == (job.outputDir + "/") + (job.prefix + "_lines");
    }
  }

  /** A line file never lands on the master file's path. */
  lemma LinePathIsNotMaster(job: Job, index: nat, turn: Turn)
    ensures LinePath(job, index, turn) != MasterPath(job)
  {
    var k := PrefixStart(job) + |job.prefix|;
    var name := Filename(index, turn.voice, turn.text);
    FilenameIndex(index, turn.voice, turn.text);
    Pad3Facts(index);
    assert name[0] == Pad3(index)[0];
    assert LinePath(job, index, turn) == LinesFolder(job) + "/" + name;
    OutputPaths(job);
    assert LinePath(job, index, turn)[k] == '_';
    assert MasterPath(job)[k] == '.';
  }

  /** What `generate_line` does for line `k` (counted from 0) of the dialogue. */
  function LineResult(e: Engine, job: Job, k: nat): Result<seq<real>, Failure>
    requires k < |job.turns|
  {
    LineAudio(e, job.turns[k].text, job.turns[k].voicePath, job.settings)
  }

  /**
   * What the loop of `dialogue_to_audio` depends on: the number of lines, what
   * `generate_line` gives and asks for each line, where each line is saved, the result of
   * `create_silence`, and whether lines are saved.
   */
  datatype Plan = Plan(
    count: nat,
    line: nat -> Result<seq<real>, Failure>,
    asks: nat -> seq<Request>,
    path: nat -> string,
    pause: Result<seq<real>, Failure>,
    saveIndividual: bool)

  /** The plan of one call: line `k` (counted from 0) is saved as number `k + 1`. */
  function PlanOf(e: Engine, job: Job): Plan
  {
    var n := |job.turns|;
    Plan(n,
      (k: nat) => if k < n then LineResult(e, job, k) else Err(EmptyDialogue),
      (k: nat) => if k < n then LineRequests(job.turns[k].text, job.turns[k].voicePath, job.settings) else [],
      (k: nat) => if k < n then LinePath(job, k + 1, job.turns[k]) else "",
      Silence(e.sampleRate, job.silenceMs),
      job.saveIndividual)
  }

  /** Line `k` of a plan is what `generate_line` and `_save_individual_line` do for it. */
  predicate LineFits(p: Plan, e: Engine, job: Job, k: nat)
  {
    k < |job.turns| ==>
      && p.line(k) == LineResult(e, job, k)
      && p.asks(k) == LineRequests(job.turns[k].text, job.turns[k].voicePath, job.settings)
      && p.path(k) == LinePath(job, k + 1, job.turns[k])
  }

  /** A plan that describes a call, one line at a time. */
  predicate Fits(p: Plan, e: Engine, job: Job)
  {
    && p.count == |job.turns| && p.saveIndividual == job.saveIndividual
    && p.pause == Silence(e.sampleRate, job.silenceMs)
    && forall k: nat | k < |job.turns| :: LineFits(p, e, job, k)
  }

  lemma PlanOfFits(e: Engine, job: Job)
    ensures Fits(PlanOf(e, job), e, job)
  {
    var p := PlanOf(e, job);
    forall k: nat | k < |job.turns|
      ensures LineFits(p, e, job, k)
    {
      assert p.line(k) == LineResult(e, job, k);
    }
  }

  /** The clip of line `k`, or nothing when the line fails. */
  function Clip(p: Plan, k: nat): seq<real>
  {
    match p.line(k)
    case Ok(wav) => wav
    case Err(_) => []
  }

  /** The clips of the first `i` lines. */
  function Clips(p: Plan, i: nat): (r: seq<seq<real>>)
    ensures |r| == i
  {
    seq(i, k requires 0 <= k < i => Clip(p, k))
  }

  /** The pause `create_silence` gives, or nothing when it fails. */
  function Gap(p: Plan): seq<real>
  {
    match p.pause
    case Ok(z) => z
    case Err(_) => []
  }

  /** What the loop has done so far: requests, files saved, segments and the exception raised. */
  datatype Trace = Trace(requests: seq<Request>, files: seq<SavedFile>, segments: seq<seq<real>>, failure: Option<Failure>)

  /**
   * One pass of the loop for line `i` (counted from 0): generate the clip, save it when
   * asked, append it and, unless it is the last line, append a pause.
   */
  function Step(p: Plan, i: nat, t: Trace): Trace
  {
    var requests := t.requests + p.asks(i);
    match p.line(i)
    case Err(f) => Trace(requests, t.files, t.segments, Some(f))
    case Ok(wav) =>
      var files := t.files + (if p.saveIndividual then [SavedFile(p.path(i), wav)] else []);
      if i + 1 < p.count then
        match p.pause
        case Err(f) => Trace(requests, files, t.segments + [wav], Some(f))
        case Ok(gap) => Trace(requests, files, t.segments + [wav, gap], None)
      else Trace(requests, files, t.segments + [wav], None)
  }

  /** The first `i` passes of the loop; the first exception ends it. */
  function Steps(p: Plan, i: nat): Trace
  {
    if i == 0 then Trace([], [], [], None)
    else
      var t := Steps(p, i - 1);
      if t.failure.Some? then t else Step(p, i - 1, t)
  }

  /** `torch.cat(segments, dim=1)` on mono clips: the samples of every segment in order. */
  function Concat(segments: seq<seq<real>>): seq<real>
  {
    if segments == [] then [] else Concat(segments[..|segments| - 1]) + segments[|segments| - 1]
  }

  /** The total number of samples in some clips. */
  function TotalLength(clips: seq<seq<real>>): nat
  {
    if clips == [] then 0 else TotalLength(clips[..|clips| - 1]) + |clips[|clips| - 1]|
  }

  /** Clips separated by one gap each: clip, gap, clip, …, clip. */
  function Interleave(clips: seq<seq<real>>, gap: seq<real>): (r: seq<seq<real>>)
    ensures |r| == if clips == [] then 0 else 2 * |clips| - 1
  {
    if |clips| <= 1 then clips else Interleave(clips[..|clips| - 1], gap) + [gap, clips[|clips| - 1]]
  }

  /** Clips sit at the even positions and the gap at every odd one. */
  lemma {:induction false} InterleavePositions(clips: seq<seq<real>>, gap: seq<real>, j: nat)
    requires j < |Interleave(clips, gap)|
    ensures Interleave(clips, gap)[j] == if j % 2 == 0 then clips[j / 2] else gap
  {
    if |clips| > 1 && j < 2 * |clips| - 3 {
      InterleavePositions(clips[..|clips| - 1], gap, j);
    }
  }

  lemma {:induction false} ConcatAppend(a: seq<seq<real>>, b: seq<seq<real>>)
    ensures Concat(a + b) == Concat(a) + Concat(b)
    decreases |b|
  {
    if b == [] {
      assert a + b == a;
    } else {
      assert (a + b)[..|a + b| - 1] == a + b[..|b| - 1];
      ConcatAppend(a, b[..|b| - 1]);
    }
  }

  /** The master holds every clip's samples plus one gap's worth between each pair. */
  lemma {:induction false} InterleaveLength(clips: seq<seq<real>>, gap: seq<real>)
    requires clips != []
    ensures |Concat(Interleave(clips, gap))| == TotalLength(clips) + (|clips| - 1) * |gap|
  {
    if |clips| == 1 {
      assert clips[..0] == [];
      assert Concat(clips) == Concat([]) + clips[0];
    } else {
      var init := clips[..|clips| - 1];
      var last := clips[|clips| - 1];
      InterleaveLength(init, gap);
      ConcatAppend(Interleave(init, gap), [gap, last]);
      ConcatTwo(gap, last);
    }
  }

  lemma ConcatTwo(a: seq<real>, b: seq<real>)
    ensures Concat([a, b]) == a + b
  {
    assert [a, b][..1] == [a];
    assert [a][..0] == [];
    assert Concat([a]) == Concat([]) + a;
  }

  /** A pass whose line and pause succeed adds the line's requests, file and segments. */
  lemma StepSucceeds(p: Plan, i: nat, wav: seq<real>, gap: seq<real>)
    requires Steps(p, i).failure == None && p.line(i) == Ok(wav)
    requires i + 1 < p.count ==> p.pause == Ok(gap)
    ensures var t := Steps(p, i);
      Steps(p, i + 1) == Trace(t.requests + p.asks(i),
        t.files + (if p.saveIndividual then [SavedFile(p.path(i), wav)] else []),
        t.segments + (if i + 1 < p.count then [wav, gap] else [wav]), None)
  {
  }

  /** Once an exception is raised, the later passes do nothing. */
  lemma {:induction false} FailureSticks(p: Plan, i: nat, j: nat)
    requires i <= j && Steps(p, i).failure.Some?
    ensures Steps(p, j) == Steps(p, i)
    decreases j
  {
    if i < j {
      FailureSticks(p, i, j - 1);
    }
  }

  /** While no exception is raised, every line so far produced its clip and every pause so far was made. */
  lemma {:induction false} StepsOk(p: Plan, i: nat)
    requires Steps(p, i).failure == None
    ensures forall k :: 0 <= k < i ==> p.line(k).Ok?
    ensures 0 < i < p.count ==> p.pause.Ok?
  {
    if i > 0 {
      assert Steps(p, i - 1).failure == None;
      StepsOk(p, i - 1);
    }
  }

  /** While no exception is raised and each line asks once, the requests are the lines' own, in order. */
  lemma {:induction false} StepsRequestsInOrder(p: Plan, i: nat)
    requires Steps(p, i).failure == None
    requires forall k :: 0 <= k < i ==> |p.asks(k)| == 1
    ensures |Steps(p, i).requests| == i && forall k :: 0 <= k < i ==> Steps(p, i).requests[k] == p.asks(k)[0]
  {
    if i > 0 {
      assert Steps(p, i - 1).failure == None;
      StepsRequestsInOrder(p, i - 1);
      assert Steps(p, i).requests == Steps(p, i - 1).requests + p.asks(i - 1);
    }
  }

  /**
   * While no exception is raised, the segments are the clips so far with a pause between
   * each pair and after the last, unless it is the final line.
   */
  lemma {:induction false} StepsSegments(p: Plan, i: nat)
    requires i <= p.count && Steps(p, i).failure == None
    ensures Steps(p, i).segments == Interleave(Clips(p, i), Gap(p)) + (if 0 < i < p.count then [Gap(p)] else [])
  {
    if i > 0 {
      var t := Steps(p, i - 1);
      assert t.failure == None;
      StepsSegments(p, i - 1);
      StepsOk(p, i);
      var c := Clips(p, i);
      var g := Gap(p);
      var tail := if i < p.count then [g] else [];
      assert Steps(p, i).segments == t.segments + [c[i - 1]] + tail;
      assert c[..i - 1] == Clips(p, i - 1);
      if i == 1 {
        assert Interleave(c, g) == c == [c[0]];
      } else {
        assert Interleave(c, g) == Interleave(Clips(p, i - 1), g) + [g, c[i - 1]];
        assert t.segments == Interleave(Clips(p, i - 1), g) + [g];
      }
    }
  }

  /**
   * While no exception is raised, every line so far produced its clip and made the
   * requests it asks for, in order, and the segments are those clips with a pause between
   * each pair and after the last, unless it is the final line.
   */
  lemma StepsSucceed(p: Plan, i: nat)
    requires i <= p.count && Steps(p, i).failure == None
    ensures forall k :: 0 <= k < i ==> p.line(k).Ok?
    ensures (forall k :: 0 <= k < i ==> |p.asks(k)| == 1) ==>
      |Steps(p, i).requests| == i && forall k :: 0 <= k < i ==> Steps(p, i).requests[k] == p.asks(k)[0]
    ensures 0 < i < p.count ==> p.pause.Ok?
    ensures Steps(p, i).segments == Interleave(Clips(p, i), Gap(p)) + (if 0 < i < p.count then [Gap(p)] else [])
  {
    StepsOk(p, i);
    if forall k :: 0 <= k < i ==> |p.asks(k)| == 1 {
      StepsRequestsInOrder(p, i);
    }
    StepsSegments(p, i);
  }

  /**
   * After the last pass without an exception, the segments are all the clips with one pause
   * between each pair, and their total length is the clips' plus N - 1 pauses.
   */
  lemma StepsMaster(p: Plan)
    requires p.count > 0 && Steps(p, p.count).failure == None
    ensures forall k :: 0 <= k < p.count ==> p.line(k).Ok?
    ensures p.count > 1 ==> p.pause.Ok?
    ensures Steps(p, p.count).segments == Interleave(Clips(p, p.count), Gap(p))
    ensures |Concat(Steps(p, p.count).segments)| == TotalLength(Clips(p, p.count)) + (p.count - 1) * |Gap(p)|
  {
    var n := p.count;
    StepsOk(p, n);
    StepsSegments(p, n);
    if n > 1 {
      assert Steps(p, n - 1).failure == None;
      StepsOk(p, n - 1);
    }
    InterleaveLength(Clips(p, n), Gap(p));
    assert Interleave(Clips(p, n), Gap(p)) + [] == Interleave(Clips(p, n), Gap(p));
  }

  /**
   * Line files are saved in line order, each holding its line's clip under that line's
   * path, one per line generated; none are written when saving lines is off.
   */
  lemma {:induction false} StepsFiles(p: Plan, i: nat)
    ensures |Steps(p, i).files| <= i
    ensures !p.saveIndividual ==> Steps(p, i).files == []
    ensures p.saveIndividual && Steps(p, i).failure == None ==> |Steps(p, i).files| == i
    ensures forall k :: 0 <= k < |Steps(p, i).files| ==>
      p.line(k).Ok? && Steps(p, i).files[k] == SavedFile(p.path(k), Clip(p, k))
  {
    if i > 0 {
      StepsFiles(p, i - 1);
    }
  }

  /**
   * An exception comes from the first line that fails, either in `generate_line` or in
   * the pause after it; no line after it makes a request.
   */
  lemma {:induction false} StepsFailure(p: Plan, i: nat) returns (k: nat)
    requires i <= p.count && Steps(p, i).failure.Some?
    ensures k < i
    ensures forall j :: 0 <= j < k ==> p.line(j).Ok?
    ensures p.line(k).Err? ==> Steps(p, i).failure == Some(p.line(k).error)
    ensures p.line(k).Ok? ==> k + 1 < p.count && p.pause.Err? && Steps(p, i).failure == Some(p.pause.error)
    ensures (forall j :: 0 <= j < i ==> |p.asks(j)| <= 1) ==> |Steps(p, i).requests| <= k + 1
  {
    var t := Steps(p, i - 1);
    if t.failure.Some? {
      k := StepsFailure(p, i - 1);
    } else {
      StepsOk(p, i - 1);
      if forall j :: 0 <= j < i ==> |p.asks(j)| <= 1 {
        StepsRequests(p, i - 1);
      }
      k := i - 1;
    }
  }

  /** Each pass adds at most the requests its line asks for. */
  lemma {:induction false} StepsRequests(p: Plan, i: nat)
    requires forall j :: 0 <= j < i ==> |p.asks(j)| <= 1
    ensures |Steps(p, i).requests| <= i
  {
    if i > 0 {
      StepsRequests(p, i - 1);
    }
  }

  /** What a whole `dialogue_to_audio` call does: engine calls, files written, and the result. */
  datatype Outcome = Outcome(requests: seq<Request>, files: seq<SavedFile>, result: Result<string, Failure>)

  function Dialogue(e: Engine, job: Job): Outcome
  {
    if job.turns == [] then Outcome([], [], Err(EmptyDialogue))
    else
      var t := Steps(PlanOf(e, job), |job.turns|);
      if t.failure.Some? then Outcome(t.requests, t.files, Err(t.failure.value))
      else Outcome(t.requests, t.files + [SavedFile(MasterPath(job), Concat(t.segments))], Ok(MasterPath(job)))
  }

  /** The plan of a call reads each line's `generate_line`, requests and path, and `create_silence`. */
  lemma PlanOfFacts(e: Engine, job: Job, k: nat)
    requires k < |job.turns|
    ensures var p := PlanOf(e, job);
      && p.count == |job.turns| && p.saveIndividual == job.saveIndividual
      && p.line(k) == LineResult(e, job, k) == LineAudio(e, job.turns[k].text, job.turns[k].voicePath, job.settings)
      && p.path(k) == LinePath(job, k + 1, job.turns[k])
      && p.pause == Silence(e.sampleRate, job.silenceMs)
      && p.asks(k) == LineRequests(job.turns[k].text, job.turns[k].voicePath, job.settings)
      && |p.asks(k)| <= 1
      && (p.line(k).Ok? ==> p.asks(k) == [LineRequest(job.turns[k].text, job.turns[k].voicePath, job.settings)])
  {
  }

  /** A call whose loop raises at pass `i` ends with what the loop had done, and raises. */
  lemma DialogueStops(e: Engine, job: Job, i: nat)
    requires 0 < i <= |job.turns| && Steps(PlanOf(e, job), i).failure.Some?
    ensures var t := Steps(PlanOf(e, job), i);
      Dialogue(e, job) == Outcome(t.requests, t.files, Err(t.failure.value))
  {
    FailureSticks(PlanOf(e, job), i, |job.turns|);
  }

  /** A call whose loop finishes saves the concatenated segments as the master file. */
  lemma DialogueEnds(e: Engine, job: Job)
    requires |job.turns| > 0 && Steps(PlanOf(e, job), |job.turns|).failure == None
    ensures var t := Steps(PlanOf(e, job), |job.turns|);
      Dialogue(e, job) == Outcome(t.requests, t.files + [SavedFile(MasterPath(job), Concat(t.segments))], Ok(MasterPath(job)))
  {
  }

  /** An empty dialogue raises before anything is generated or saved. */
  lemma EmptyDialogueFails(e: Engine, job: Job)
    requires job.turns == []
    ensures Dialogue(e, job) == Outcome([], [], Err(EmptyDialogue))
  {
  }

  /**
   * On success every line produced its clip, the master file is written last at
   * `{prefix}.wav`, and it is the clips in order with a zero-filled pause between each pair
   * and none after the last, so its length is the clips' total plus N - 1 pauses.
   */
  lemma DialogueMaster(e: Engine, job: Job) returns (clips: seq<seq<real>>, gap: seq<real>)
    requires Dialogue(e, job).result.Ok?
    ensures |clips| == |job.turns| > 0
    ensures forall k :: 0 <= k < |clips| ==> LineResult(e, job, k) == Ok(clips[k])
    ensures |clips| > 1 ==> Silence(e.sampleRate, job.silenceMs) == Ok(gap)
    ensures forall i :: 0 <= i < |gap| ==> gap[i] == 0.0
    ensures var o := Dialogue(e, job);
      && o.result == Ok(MasterPath(job))
      && o.files[|o.files| - 1] == SavedFile(MasterPath(job), Concat(Interleave(clips, gap)))
      && |Concat(Interleave(clips, gap))| == TotalLength(clips) + (|clips| - 1) * |gap|
  {
    var p := PlanOf(e, job);
    PlanOfFits(e, job);
    clips, gap := MasterOfFit(e, job, p);
  }

  /** The master recording of a run that fits the call, stated line by line. */
  lemma MasterOfFit(e: Engine, job: Job, p: Plan) returns (clips: seq<seq<real>>, gap: seq<real>)
    requires Fits(p, e, job) && |job.turns| > 0 && Steps(p, |job.turns|).failure == None
    ensures |clips| == |job.turns|
    ensures forall k :: 0 <= k < |clips| ==> LineResult(e, job, k) == Ok(clips[k])
    ensures |clips| > 1 ==> Silence(e.sampleRate, job.silenceMs) == Ok(gap)
    ensures forall i :: 0 <= i < |gap| ==> gap[i] == 0.0
    ensures Steps(p, |job.turns|).segments == Interleave(clips, gap)
    ensures |Concat(Interleave(clips, gap))| == TotalLength(clips) + (|clips| - 1) * |gap|
  {
    StepsMaster(p);
    clips := Clips(p, |job.turns|);
    gap := Gap(p);
    FitClips(e, job, p);
    FitGap(e, job, p);
  }

  lemma FitClips(e: Engine, job: Job, p: Plan)
    requires Fits(p, e, job) && Steps(p, |job.turns|).failure == None
    ensures forall k :: 0 <= k < |job.turns| ==> LineResult(e, job, k) == Ok(Clips(p, |job.turns|)[k])
  {
    var n := |job.turns|;
    StepsOk(p, n);
    forall k | 0 <= k < n
      ensures LineResult(e, job, k) == Ok(Clips(p, n)[k])
    {
      assert LineFits(p, e, job, k);
    }
  }

  lemma FitGap(e: Engine, job: Job, p: Plan)
    requires Fits(p, e, job)
    ensures p.pause.Ok? ==> Silence(e.sampleRate, job.silenceMs) == Ok(Gap(p))
    ensures forall i :: 0 <= i < |Gap(p)| ==> Gap(p)[i] == 0.0
  {
    SilenceFacts(e.sampleRate, job.silenceMs);
  }

  /**
   * On success there is one engine request per line, in dialogue order, and, when saving
   * lines is on, the line files come first, numbered 1..N in dialogue order, each holding
   * its line's clip.
   */
  lemma DialogueLineFiles(e: Engine, job: Job)
    requires Dialogue(e, job).result.Ok?
    ensures var o := Dialogue(e, job);
      && |o.files| == (if job.saveIndividual then |job.turns| else 0) + 1
      && (forall k :: 0 <= k < |o.files| - 1 ==>
           LineResult(e, job, k).Ok?
           && o.files[k] == SavedFile(LinePath(job, k + 1, job.turns[k]), LineResult(e, job, k).value))
      && |o.requests| == |job.turns|
      && forall k :: 0 <= k < |job.turns| ==>
           o.requests[k] == LineRequest(job.turns[k].text, job.turns[k].voicePath, job.settings)
  {
    var n := |job.turns|;
    var p := PlanOf(e, job);
    StepsFiles(p, n);
    StepsSucceed(p, n);
    forall k | 0 <= k < n
      ensures p.line(k) == LineResult(e, job, k) && |p.asks(k)| == 1
      ensures p.path(k) == LinePath(job, k + 1, job.turns[k])
      ensures p.asks(k)[0] == LineRequest(job.turns[k].text, job.turns[k].voicePath, job.settings)
    {
      PlanOfFacts(e, job, k);
    }
  }

  /**
   * An exception on any line propagates before the concatenation: the result is the
   * exception of the first line that failed, in `generate_line` or in the pause after it,
   * and no later line makes an engine request.
   */
  lemma FailureIsFirst(e: Engine, job: Job) returns (k: nat)
    requires Dialogue(e, job).result.Err? && job.turns != []
    ensures k < |job.turns|
    ensures forall j :: 0 <= j < k ==> LineResult(e, job, j).Ok?
    ensures LineResult(e, job, k).Err? ==> Dialogue(e, job).result == Err(LineResult(e, job, k).error)
    ensures LineResult(e, job, k).Ok? ==>
      k + 1 < |job.turns| && Silence(e.sampleRate, job.silenceMs).Err?
      && Dialogue(e, job).result == Err(Silence(e.sampleRate, job.silenceMs).error)
    ensures |Dialogue(e, job).requests| <= k + 1
  {
    var n := |job.turns|;
    var p := PlanOf(e, job);
    forall j | 0 <= j < n
      ensures |p.asks(j)| <= 1
    {
      PlanOfFacts(e, job, j);
    }
    k := StepsFailure(p, n);
    PlanOfFacts(e, job, k);
    forall j | 0 <= j < k
      ensures LineResult(e, job, j).Ok?
    {
      PlanOfFacts(e, job, j);
    }
  }

  /**
   * When the call raises, the master file is not saved: only line files were written, at
   * most one per line up to the failing one, none of them at the master path.
   */
  lemma NoMasterOnFailure(e: Engine, job: Job)
    requires Dialogue(e, job).result.Err?
    ensures |Dialogue(e, job).files| <= |job.turns|
    ensures forall i :: 0 <= i < |Dialogue(e, job).files| ==> Dialogue(e, job).files[i].path != MasterPath(job)
  {
    if job.turns != [] {
      var n := |job.turns|;
      var p := PlanOf(e, job);
      StepsFiles(p, n);
      forall i | 0 <= i < |Steps(p, n).files|
        ensures Steps(p, n).files[i].path != MasterPath(job)
      {
        PlanOfFacts(e, job, i);
        LinePathIsNotMaster(job, i + 1, job.turns[i]);
      }
    }
  }

  // ---------------------------------------------------------------------------------
  // The pipeline object
  // ---------------------------------------------------------------------------------

  /**
   * A `VoicePipeline`: the loaded engine and the output directory, with the log of engine
   * requests made and files saved.
   */
  class VoicePipeline {
    const engine: Engine
    const outputDir: string
    var requests: seq<Request>
    var files: seq<SavedFile>

    constructor(engine: Engine, outputDir: string)
      ensures this.engine == engine && this.outputDir == outputDir
      ensures requests == [] && files == []
    {
      this.engine := engine;
      this.outputDir := outputDir;
      requests := [];
      files := [];
    }

    /**
     * `generate_line`: normalise (emails only), refuse text that strips to under three
     * characters, call the engine, and post-process when asked.
     */
    method GenerateLine(text: string, voicePath: string, s: Settings) returns (r: Result<seq<real>, Failure>)
      modifies this`requests
      ensures r == LineAudio(engine, text, voicePath, s)
      ensures requests == old(requests) + LineRequests(text, voicePath, s)
    {
      var spoken := text;
      if s.normalizeText {
        spoken := TextNormalizer.NormalizeText(text, true, false, false);
      }
      if |Strip(spoken)| < 3 {
        return Err(TextTooShort(spoken));
      }
      var request := Request(spoken, voicePath, s.language, s.exaggeration, s.cfgWeight);
      requests := requests + [request];
      var wav := engine.generate(request);
      if wav.None? {
        return Err(EngineFailed(request));
      }
      var audio := wav.value;
      if s.processAudio {
        audio := AudioProcessor.ProcessLine(audio, engine.sampleRate, engine.filters, true, true, true, true);
      }
      r := Ok(audio);
    }

    /** `create_silence`. */
    method CreateSilence(ms: int) returns (r: Result<seq<real>, Failure>)
      ensures r == Silence(engine.sampleRate, ms)
    {
      var n := AudioProcessor.MsToSamples(engine.sampleRate, ms);
      if n < 0 {
        return Err(NegativeSilence(n));
      }
      r := Ok(seq(n, _ => 0.0));
    }

    /** `_save_individual_line`: save the clip under its numbered name in the lines folder. */
    method SaveIndividualLine(wav: seq<real>, job: Job, turn: Turn, index: nat) returns (path: string)
      modifies this`files
      ensures path == LinePath(job, index, turn)
      ensures files == old(files) + [SavedFile(path, wav)]
    {
      path := JoinPath(LinesFolder(job), Filename(index, turn.voice, turn.text));
      files := files + [SavedFile(path, wav)];
    }

    /**
     * One pass of the loop of `dialogue_to_audio` for line `i` (counted from 0): generate
     * it, save it as number `i + 1` when asked, and give the segments to append (the clip,
     * then a pause unless it is the last line), or the exception raised.
     */
    method PlayLine(job: Job, i: nat, ghost p: Plan, ghost t: Trace)
      returns (added: seq<seq<real>>, failure: Option<Failure>, ghost asked: seq<Request>, ghost saved: seq<SavedFile>)
      requires Fits(p, engine, job) && i < |job.turns| && t == Steps(p, i) && t.failure == None
      modifies this`requests, this`files
      ensures var next := Steps(p, i + 1);
        && next.requests == t.requests + asked && next.files == t.files + saved
        && next.segments == t.segments + added && next.failure == failure
      ensures requests == old(requests) + asked && files == old(files) + saved
    {
      assert LineFits(p, engine, job, i);
      var turn := job.turns[i];
      asked := LineRequests(turn.text, turn.voicePath, job.settings);
      saved := [];
      added := [];
      var wav := GenerateLine(turn.text, turn.voicePath, job.settings);
      if wav.Err? {
        return [], Some(wav.error), asked, [];
      }
      if job.saveIndividual {
        var path := SaveIndividualLine(wav.value, job, turn, i + 1);
        saved := [SavedFile(path, wav.value)];
      }
      var gap := [];
      if i + 1 < |job.turns| {
        var silence := CreateSilence(job.silenceMs);
        if silence.Err? {
          return [wav.value], Some(silence.error), asked, saved;
        }
        gap := silence.value;
        added := [wav.value, gap];
      } else {
        added := [wav.value];
      }
      failure := None;
      StepSucceeds(p, i, wav.value, gap);
    }

    /**
     * The loop of `dialogue_to_audio`: play the lines in order until one raises, and give
     * the segments gathered and the exception raised, if any.
     */
    method PlayLines(job: Job, ghost p: Plan) returns (segments: seq<seq<real>>, failure: Option<Failure>)
      requires Fits(p, engine, job)
      modifies this`requests, this`files
      ensures var t := Steps(p, |job.turns|);
        && failure == t.failure && segments == t.segments
        && requests == old(requests) + t.requests && files == old(files) + t.files
    {
      segments := [];
      failure := None;
      var i := 0;
      while i < |job.turns| && failure == None
        invariant i <= |job.turns|
        invariant failure == Steps(p, i).failure
        invariant requests == old(requests) + Steps(p, i).requests
        invariant files == old(files) + Steps(p, i).files
        invariant segments == Steps(p, i).segments
      {
        var added;
        ghost var asked, saved;
        added, failure, asked, saved := PlayLine(job, i, p, Steps(p, i));
        segments := segments + added;
        i := i + 1;
      }
      if failure.Some? {
        FailureSticks(p, i, |job.turns|);
      }
    }

    /**
     * `dialogue_to_audio`: generate each line in order, save it when asked, append it and a
     * pause after every line but the last, then concatenate and save the master file. The
     * first exception ends the call.
     */
    method DialogueToAudio(turns: seq<Turn>, prefix: string, silenceMs: int, s: Settings, saveIndividual: bool)
      returns (r: Result<string, Failure>)
      modifies this
      ensures var o := Dialogue(engine, Job(outputDir, prefix, turns, silenceMs, s, saveIndividual));
        && r == o.result
        && requests == old(requests) + o.requests
        && files == old(files) + o.files
    {
      var job := Job(outputDir, prefix, turns, silenceMs, s, saveIndividual);
      if |turns| == 0 {
        EmptyDialogueFails(engine, job);
        return Err(EmptyDialogue);
      }
      PlanOfFits(engine, job);
      var segments, failure := PlayLines(job, PlanOf(engine, job));
      if failure.Some? {
        DialogueStops(engine, job, |turns|);
        return Err(failure.value);
      }
      DialogueEnds(engine, job);
      var master := MasterPath(job);
      files := files + [SavedFile(master, Concat(segments))];
      r := Ok(master);
    }
  }
}
