/**
 * `AudioProcessor` of app/voice_pipeline.py: the fade-in/fade-out of `apply_fade` and the
 * stage order of `process_line`. Audio is one mono channel of real-valued samples; the
 * torchaudio filters and the RMS normalisation are stage functions given from outside.
 */
module AudioProcessor {

  /**
   * `int(sample_rate * ms / 1000)`: the samples `ms` milliseconds take, the quotient
   * truncated toward zero as Python's `int` does.
   */
  function MsToSamples(sampleRate: int, ms: int): (n: int)
    ensures sampleRate * ms >= 0 ==> 0 <= n * 1000 <= sampleRate * ms < (n + 1) * 1000
    ensures sampleRate * ms < 0 ==> (n - 1) * 1000 < sampleRate * ms <= n * 1000 <= 0
  {
    var x := sampleRate * ms;
    if x >= 0 then x / 1000 else -((-x) / 1000)
  }

  /**
   * The number of samples a fade of `ms` milliseconds covers at `sampleRate`, capped at
   * half the clip (`min(int(sample_rate * ms / 1000), num_samples // 2)`); zero or less
   * means no fade.
   */
  function FadeLength(sampleRate: int, ms: int, n: nat): (k: int)
    ensures k <= n / 2
  {
    var k := MsToSamples(sampleRate, ms);
    if k < n / 2 then k else n / 2
  }

  /** `torch.linspace(start, stop, m)`: `m` evenly spaced values from `start` to `stop`. */
  function Linspace(start: real, stop: real, m: nat): (r: seq<real>)
    ensures |r| == m
  {
    seq(m, j requires 0 <= j < m => if m == 1 then start else start + (stop - start) * (j as real / (m - 1) as real))
  }

  /** A ramp between 0 and 1, either way, stays within [0, 1], starts at `start` and, with two or more values, ends at `stop`. */
  lemma RampFacts(start: real, stop: real, m: nat, j: nat)
    requires (start == 0.0 && stop == 1.0) || (start == 1.0 && stop == 0.0)
    requires j < m
    ensures 0.0 <= Linspace(start, stop, m)[j] <= 1.0
    ensures j == 0 ==> Linspace(start, stop, m)[j] == start
    ensures m >= 2 && j == m - 1 ==> Linspace(start, stop, m)[j] == stop
  {
    if m > 1 {
      var x := j as real / (m - 1) as real;
      assert 0.0 <= x <= 1.0;
    }
  }

  /** `a[lo:lo + len(g)] *= g`: the samples from `lo` on multiplied by the factors `g`. */
  function ScaleRange(a: seq<real>, lo: nat, g: seq<real>): (r: seq<real>)
    requires lo + |g| <= |a|
    ensures |r| == |a|
  {
    seq(|a|, i requires 0 <= i < |a| => if lo <= i < lo + |g| then a[i] * g[i - lo] else a[i])
  }

  /**
   * The clip after `apply_fade`'s two in-place products: the first `fi` samples by a rising
   * ramp, then the last `fo` samples by a falling one (each only when its length is positive).
   */
  function Faded(a: seq<real>, fi: int, fo: int): (r: seq<real>)
    requires fi <= |a| && fo <= |a|
    ensures |r| == |a|
  {
    var b := if fi > 0 then ScaleRange(a, 0, Linspace(0.0, 1.0, fi)) else a;
    if fo > 0 then ScaleRange(b, |a| - fo, Linspace(1.0, 0.0, fo)) else b
  }

  /** `copy[lo:lo + len(g)] *= g`, one sample at a time. */
  method ScaleInPlace(copy: array<real>, lo: nat, g: seq<real>)
    requires lo + |g| <= copy.Length
    modifies copy
    ensures copy[..] == ScaleRange(old(copy[..]), lo, g)
  {
    ghost var a := copy[..];
    for j := 0 to |g|
      invariant forall i :: 0 <= i < copy.Length && !(lo <= i < lo + j) ==> copy[i] == a[i]
      invariant forall i :: lo <= i < lo + j ==> copy[i] == a[i] * g[i - lo]
    {
      copy[lo + j] := copy[lo + j] * g[j];
    }
    forall i | 0 <= i < copy.Length
      ensures copy[..][i] == ScaleRange(a, lo, g)[i]
    {
    }
  }

  /**
   * `apply_fade`: clones the clip and multiplies its first `fi` samples by a rising ramp
   * and its last `fo` samples by a falling one, in place on the clone; the input is not
   * modified.
   */
  method ApplyFade(audio: array<real>, sampleRate: int, fadeInMs: int, fadeOutMs: int) returns (copy: array<real>)
    ensures fresh(copy)
    ensures copy[..] == Faded(audio[..], FadeLength(sampleRate, fadeInMs, audio.Length),
                              FadeLength(sampleRate, fadeOutMs, audio.Length))
  {
    var n := audio.Length;
    var fi := FadeLength(sampleRate, fadeInMs, n);
    var fo := FadeLength(sampleRate, fadeOutMs, n);
    copy := new real[n](i requires 0 <= i < n reads audio => audio[i]);
    assert copy[..] == audio[..];
    if fi > 0 {
      ScaleInPlace(copy, 0, Linspace(0.0, 1.0, fi));
    }
    if fo > 0 {
      ScaleInPlace(copy, n - fo, Linspace(1.0, 0.0, fo));
    }
  }

  /** Both fades cover at most half the clip, so the two ranges never overlap. */
  lemma FadesDisjoint(sampleRate: int, fadeInMs: int, fadeOutMs: int, n: nat)
    ensures FadeLength(sampleRate, fadeInMs, n) + FadeLength(sampleRate, fadeOutMs, n) <= n
  {
  }

  /** Samples outside both fade ranges are unchanged. */
  lemma FadedKeepsMiddle(a: seq<real>, fi: int, fo: int, i: nat)
    requires fi <= |a| / 2 && fo <= |a| / 2 && i < |a| && i >= fi && i < |a| - fo
    ensures Faded(a, fi, fo)[i] == a[i]
  {
  }

  /** Each sample is scaled by a factor in [0, 1]: by one ramp value or left alone. */
  lemma FadedScales(a: seq<real>, fi: int, fo: int, i: nat) returns (g: real)
    requires fi <= |a| / 2 && fo <= |a| / 2 && i < |a|
    ensures 0.0 <= g <= 1.0 && Faded(a, fi, fo)[i] == a[i] * g
  {
    if i < fi {
      RampFacts(0.0, 1.0, fi, i);
      g := Linspace(0.0, 1.0, fi)[i];
    } else if 0 < fo && |a| - fo <= i {
      RampFacts(1.0, 0.0, fo, i - (|a| - fo));
      g := Linspace(1.0, 0.0, fo)[i - (|a| - fo)];
    } else {
      g := 1.0;
    }
  }

  /** A fade-in starts from silence. */
  lemma FadeInStartsSilent(a: seq<real>, fi: int, fo: int)
    requires 0 < fi <= |a| / 2 && fo <= |a| / 2
    ensures Faded(a, fi, fo)[0] == 0.0
  {
    RampFacts(0.0, 1.0, fi, 0);
    var b := ScaleRange(a, 0, Linspace(0.0, 1.0, fi));
    assert b[0] == a[0] * 0.0 == 0.0;
  }

  /** A fade-out of two or more samples ends in silence. */
  lemma FadeOutEndsSilent(a: seq<real>, fi: int, fo: int)
    requires fi <= |a| / 2 && 1 < fo <= |a| / 2
    ensures Faded(a, fi, fo)[|a| - 1] == 0.0
  {
    RampFacts(1.0, 0.0, fo, fo - 1);
    var b := if fi > 0 then ScaleRange(a, 0, Linspace(0.0, 1.0, fi)) else a;
    var c := ScaleRange(b, |a| - fo, Linspace(1.0, 0.0, fo));
    assert c[|a| - 1] == b[|a| - 1] * Linspace(1.0, 0.0, fo)[fo - 1];
  }

  // ---------------------------------------------------------------------------------
  // process_line
  // ---------------------------------------------------------------------------------

  /** The signal stages `process_line` calls, supplied from outside. */
  datatype Filters = Filters(
    highPass: (seq<real>, int) -> seq<real>,
    deEss: (seq<real>, int) -> seq<real>,
    normalizeRms: seq<real> -> seq<real>)

  /** One stage of `process_line`. */
  datatype Stage = HighPass | DeEss | NormalizeRms | Fade

  /** Position of a stage in the fixed order. */
  function Rank(stage: Stage): nat
  {
    match stage
    case HighPass => 0
    case DeEss => 1
    case NormalizeRms => 2
    case Fade => 3
  }

  /** `apply_fade` with its defaults of 10 ms in and 50 ms out. */
  function FadeClip(audio: seq<real>, sampleRate: int): (r: seq<real>)
    ensures |r| == |audio|
  {
    Faded(audio, FadeLength(sampleRate, 10, |audio|), FadeLength(sampleRate, 50, |audio|))
  }

  /** `apply_fade` on a clip held as a sequence: copied into a buffer and faded there. */
  method FadeSamples(audio: seq<real>, sampleRate: int) returns (r: seq<real>)
    ensures r == FadeClip(audio, sampleRate)
  {
    var buffer := new real[|audio|](i requires 0 <= i < |audio| => audio[i]);
    assert buffer[..] == audio;
    var faded := ApplyFade(buffer, sampleRate, 10, 50);
    r := faded[..];
  }

  /** One stage on a clip; the fade uses `apply_fade`'s defaults of 10 ms in and 50 ms out. */
  function RunStage(stage: Stage, f: Filters, audio: seq<real>, sampleRate: int): seq<real>
  {
    match stage
    case HighPass => f.highPass(audio, sampleRate)
    case DeEss => f.deEss(audio, sampleRate)
    case NormalizeRms => f.normalizeRms(audio)
    case Fade => FadeClip(audio, sampleRate)
  }

  /** The stages applied one after the other, first to last. */
  function RunStages(stages: seq<Stage>, f: Filters, audio: seq<real>, sampleRate: int): seq<real>
  {
    if stages == [] then audio else RunStages(stages[1..], f, RunStage(stages[0], f, audio, sampleRate), sampleRate)
  }

  /** The stages the flags switch on, in the fixed order high-pass, de-ess, RMS, fade. */
  function EnabledStages(highPass: bool, deEss: bool, normalize: bool, fade: bool): (r: seq<Stage>)
    ensures forall i, j :: 0 <= i < j < |r| ==> Rank(r[i]) < Rank(r[j])
    ensures (HighPass in r <==> highPass) && (DeEss in r <==> deEss)
    ensures (NormalizeRms in r <==> normalize) && (Fade in r <==> fade)
  {
    (if highPass then [HighPass] else []) + (if deEss then [DeEss] else [])
      + (if normalize then [NormalizeRms] else []) + (if fade then [Fade] else [])
  }

  /** Running a concatenation of stages runs the first part, then the second. */
  lemma {:induction false} RunStagesAppend(a: seq<Stage>, b: seq<Stage>, f: Filters, audio: seq<real>, sampleRate: int)
    ensures RunStages(a + b, f, audio, sampleRate) == RunStages(b, f, RunStages(a, f, audio, sampleRate), sampleRate)
    decreases |a|
  {
    if a == [] {
      assert a + b == b;
    } else {
      assert (a + b)[0] == a[0] && (a + b)[1..] == a[1..] + b;
      RunStagesAppend(a[1..], b, f, RunStage(a[0], f, audio, sampleRate), sampleRate);
    }
  }

  /** A stage that runs only when its flag is on. */
  function Maybe(on: bool, stage: Stage, f: Filters, audio: seq<real>, sampleRate: int): seq<real>
  {
    if on then RunStage(stage, f, audio, sampleRate) else audio
  }

  lemma RunMaybe(on: bool, stage: Stage, f: Filters, audio: seq<real>, sampleRate: int)
    ensures RunStages(if on then [stage] else [], f, audio, sampleRate) == Maybe(on, stage, f, audio, sampleRate)
  {
  }

  /** Running the enabled stages is running each one whose flag is on, in the fixed order. */
  lemma EnabledRun(highPass: bool, deEss: bool, normalize: bool, fade: bool, f: Filters, audio: seq<real>, sampleRate: int)
    ensures RunStages(EnabledStages(highPass, deEss, normalize, fade), f, audio, sampleRate)
      == Maybe(fade, Fade, f, Maybe(normalize, NormalizeRms, f,
           Maybe(deEss, DeEss, f, Maybe(highPass, HighPass, f, audio, sampleRate), sampleRate), sampleRate), sampleRate)
  {
    var a: seq<Stage> := if highPass then [HighPass] else [];
    var b: seq<Stage> := if deEss then [DeEss] else [];
    var c: seq<Stage> := if normalize then [NormalizeRms] else [];
    var d: seq<Stage> := if fade then [Fade] else [];
    RunStagesAppend(a + b + c, d, f, audio, sampleRate);
    RunStagesAppend(a + b, c, f, audio, sampleRate);
    RunStagesAppend(a, b, f, audio, sampleRate);
    var r1 := RunStages(a, f, audio, sampleRate);
    var r2 := RunStages(b, f, r1, sampleRate);
    var r3 := RunStages(c, f, r2, sampleRate);
    RunMaybe(highPass, HighPass, f, audio, sampleRate);
    RunMaybe(deEss, DeEss, f, r1, sampleRate);
    RunMaybe(normalize, NormalizeRms, f, r2, sampleRate);
    RunMaybe(fade, Fade, f, r3, sampleRate);
  }

  /**
   * `process_line`: each enabled stage rewrites the clip, in the fixed order; with every
   * flag off the clip comes back unchanged.
   */
  method ProcessLine(audio: seq<real>, sampleRate: int, f: Filters, deEss: bool, normalize: bool, highPass: bool, fade: bool)
    returns (result: seq<real>)
    ensures result == RunStages(EnabledStages(highPass, deEss, normalize, fade), f, audio, sampleRate)
    ensures !deEss && !normalize && !highPass && !fade ==> result == audio
  {
    EnabledRun(highPass, deEss, normalize, fade, f, audio, sampleRate);
    result := audio;
    if highPass {
      result := f.highPass(result, sampleRate);
    }
    if deEss {
      result := f.deEss(result, sampleRate);
    }
    if normalize {
      result := f.normalizeRms(result);
    }
    if fade {
      result := FadeSamples(result, sampleRate);
    }
  }
}
