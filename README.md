# Chatterbox conversation generator: the dialogue-to-audio core in Dafny

This project models the core of a conversation generator. It reads a dialogue script
(`voiceN_wav="path"` declarations and `voiceN="text"` lines), normalises each line's text,
asks a text-to-speech engine for one clip per line, post-processes the clips and joins
them, with silence between lines, into one recording.

Seven modules, one per concern:

- `Wrappers` holds `Option` and `Result`.
- `Chars` holds the character classes the regular expressions use: ASCII `\d`, `\w` and
  `[a-zA-Z]`, and Python's whitespace for `\s`. It also holds longest-run scanning
  (`Span`), `str.strip` over the same whitespace, and single-character `str.replace`.
- `DialogueParser` models `DialogueParser` in `apps/api/dialogue_generator.py`.
  - The two patterns are scanned by hand, and each scanner is proved to find exactly the
    regex match at a position.
  - A generic `re.finditer` loop is proved to return the non-overlapping matches in order
    without skipping any.
  - The voice table keeps the last declaration of each voice. Turns are the utterances of
    declared voices, in content order.
  - `parse_dialogue_file` raises on empty results and only warns about short lines.
- `TextNormalizer` models `TextNormalizer` in `app/voice_pipeline.py`.
  - The email, URL and phone patterns each have a scanner that follows Python's
    backtracking. Each scanner is proved sound against the pattern's shape, and complete.
  - A generic `re.sub` driver, the three spoken-form callbacks, and the pipeline of
    enabled passes.
- `AudioProcessor` models `AudioProcessor`.
  - `apply_fade` works in place on a copied array. Both fades are capped at half the clip,
    so they never overlap. Every sample is scaled by a factor in [0, 1].
  - `process_line` runs the enabled stages in the fixed order.
- `VoicePipeline` models `VoicePipeline`.
  - A class holds the engine and keeps logs of the engine requests and saved files.
  - `generate_line`, `create_silence` and `_save_individual_line` are methods.
  - `dialogue_to_audio` is a method proved against a pure function of the whole call
    (`Dialogue`). The loop is stated as a trace (`Steps`) over a plan of per-line
    outcomes.
  - On success, the master file is the clips interleaved with N - 1 silences and none
    after the last. Line files are numbered 1..N. The first exception wins, and no master
    file is written after one.
- `Cli` models `validate_arguments` in `apps/api/main.py`: four checks in order, and the
  first failure is raised.

The text-to-speech engine is an oracle: `Engine.generate` maps a request to a clip, or to
nothing when the engine raises. The three signal stages of `process_line` are functions
supplied with the engine: `high_pass_filter` (a torchaudio `highpass_biquad` call), and
the pipeline's own `de_ess` and `normalize_rms`. Audio samples are `real`.

Where the design description and the code differ, the model follows the code:

- A line whose voice has no declaration is silently dropped. The description says this is
  an error.
- An exception raised while generating a line propagates as it is. The description says the
  error carries the line index.
- `normalize_email` is not idempotent, although the description says it is. On
  `a@b.cc@d.com`, one pass leaves `cc@d.com` in the output, and a second pass rewrites it
  (`TextNormalizer.EmailNotIdempotent`).

## Model

| member | source | states |
|---|---|---|
| DialogueParser.NameEndIff | apps/api/dialogue_generator.py:93 | the name scanner ends at `a` exactly when `voice\d+` spans [p, a) with a maximal digit run |
| DialogueParser.EqualsSignIff | apps/api/dialogue_generator.py:93 | the key scanner finds `=` at `b` exactly when `_wav\s*=` (declaration) or `\s*=` (utterance) spans up to `b` |
| DialogueParser.OpeningQuoteIff | apps/api/dialogue_generator.py:93 | the opening-quote scanner stops at `c` exactly when `\s*` then a quote lead to `c` |
| DialogueParser.ClosingQuoteIff | apps/api/dialogue_generator.py:119 | the closing-quote scanner stops at `e` exactly when a non-empty value of the right class ends at the closing quote `e` |
| DialogueParser.MatchSound | apps/api/dialogue_generator.py:93-119 | what the scanner returns at `p` is a match of the pattern there |
| DialogueParser.MatchComplete | apps/api/dialogue_generator.py:93-119 | every match of the pattern at `p` is the one the scanner returns, so the match is unique |
| DialogueParser.MatchValue | apps/api/dialogue_generator.py:119-128 | a matched value is non-empty and holds no copy of its delimiting quote, and no quote at all in a declaration |
| DialogueParser.MatchVoice | apps/api/dialogue_generator.py:93 | a matched voice name is `voice` followed by one or more digits |
| DialogueParser.DeclarationIsNotUtterance | apps/api/dialogue_generator.py:119 | where a `voiceN_wav=` declaration matches, the utterance pattern does not |
| DialogueParser.ScanOrdered | apps/api/dialogue_generator.py:95 | the `finditer` loop returns non-empty matches inside the text, each ending before the next starts |
| DialogueParser.ScanSound | apps/api/dialogue_generator.py:95 | every returned match is the matcher's match at its own start |
| DialogueParser.ScanComplete | apps/api/dialogue_generator.py:95 | every position where the matcher succeeds lies inside some returned match |
| DialogueParser.FindIterOrdered | apps/api/dialogue_generator.py:121 | `re.finditer` on a pattern gives ordered, non-overlapping matches within the content |
| DialogueParser.FindIterSound | apps/api/dialogue_generator.py:121 | each `finditer` match is the pattern's match at its start |
| DialogueParser.FindIterComplete | apps/api/dialogue_generator.py:121 | no position where the pattern matches is skipped |
| DialogueParser.LastDeclaration | apps/api/dialogue_generator.py:95-98 | the index returned declares the voice, and no later declaration does |
| DialogueParser.VoiceTableLastWins | apps/api/dialogue_generator.py:95-98 | a voice is in the table exactly when declared, and maps to the value of its last declaration |
| DialogueParser.ExtractVoicePaths | apps/api/dialogue_generator.py:82-100 | the loop builds the voice table of all declaration matches |
| DialogueParser.VoiceTableWellFormed | apps/api/dialogue_generator.py:93-98 | every table key is `voice<digits>` and every path is non-empty and quote-free |
| DialogueParser.KeptHitsMembers | apps/api/dialogue_generator.py:130-136 | a match is kept exactly when its voice is in the table |
| DialogueParser.KeptHitsInOrder | apps/api/dialogue_generator.py:121-136 | the kept matches start strictly left to right |
| DialogueParser.StartsIncrease | apps/api/dialogue_generator.py:121 | of two ordered non-overlapping matches, the earlier starts first |
| DialogueParser.ResolveIsKept | apps/api/dialogue_generator.py:130-136 | turn k is built from kept match k, with the table's path for its voice |
| DialogueParser.ExtractDialogueLines | apps/api/dialogue_generator.py:102-138 | the loop returns the turns of the utterance matches whose voice is declared, in match order |
| DialogueParser.ShortLinesMembers | apps/api/dialogue_generator.py:75-78 | line i (from 1) is warned about exactly when its stripped text is shorter than 3 characters |
| DialogueParser.ShortLinesIncreasing | apps/api/dialogue_generator.py:75-78 | warned line numbers increase, so each line is warned about at most once |
| DialogueParser.WarnShortLines | apps/api/dialogue_generator.py:74-78 | the warning loop reports exactly the short lines |
| DialogueParser.ParseDialogueFile | apps/api/dialogue_generator.py:36-80 | a missing file or no turns is an error with no warnings; otherwise the turns are returned with the short-line warnings |
| DialogueParser.TurnsResolved | apps/api/dialogue_generator.py:130-136 | every turn's voice is declared, its path is the table's, and its text is non-empty |
| DialogueParser.ResolutionIgnoresPosition | apps/api/dialogue_generator.py:61-64 | an utterance is kept whenever its voice is declared anywhere in the content, before or after it |
| DialogueParser.TurnsInContentOrder | apps/api/dialogue_generator.py:121-136 | the turns are the kept matches in content order, with their voices and texts |
| DialogueParser.EmptyIsError | apps/api/dialogue_generator.py:66-72 | parsing fails exactly when there are no turns, and otherwise returns all turns, short or not |
| Chars.StripFacts | app/voice_pipeline.py:406 | `strip` leaves no whitespace at either end, is empty exactly for all-space text, and keeps text without whitespace |
| Chars.StripEndFacts | app/voice_pipeline.py:136 | right-stripping removes only whitespace and leaves a non-space last character |
| Chars.ReplaceAvoids | app/voice_pipeline.py:50-53 | after `replace(c, w)` a character missing from `w` survives only if it was not `c` and was in the text |
| Chars.ReplaceAbsent | app/voice_pipeline.py:50-53 | replacing an absent character changes nothing |
| Chars.ReplaceAppend | app/voice_pipeline.py:50-53 | replacement distributes over concatenation |
| TextNormalizer.SubCopies | app/voice_pipeline.py:59 | `re.sub` copies text unchanged up to the next match |
| TextNormalizer.SubUnmatched | app/voice_pipeline.py:59 | `re.sub` with no match anywhere returns the text |
| TextNormalizer.LastTldFinds | app/voice_pipeline.py:45 | the greedy domain group picks the rightmost dot that a top-level domain can follow |
| TextNormalizer.TldEnd | app/voice_pipeline.py:45 | `[a-zA-Z]{2,}\b` ends only at the end of the longest letter run |
| TextNormalizer.EmailSound | app/voice_pipeline.py:45 | what the email scanner finds is a match of the email pattern |
| TextNormalizer.EmailComplete | app/voice_pipeline.py:45 | every email match at `p` is found with the same `@`, and the found dot is the rightmost possible one |
| TextNormalizer.SpeakLocalSpells | app/voice_pipeline.py:50 | the three chained replacements speak each local-part character independently |
| TextNormalizer.SpeakEmailFacts | app/voice_pipeline.py:47-55 | the spoken email holds no `@` and no `.` when its parts have no `@` |
| TextNormalizer.EmailEditFacts | app/voice_pipeline.py:47-59 | the replacement for any email match has no `@` and no `.` |
| TextNormalizer.EmailNeedsAt | app/voice_pipeline.py:45-59 | `normalize_email` leaves text without `@` unchanged |
| TextNormalizer.SpeakPlain | app/voice_pipeline.py:47-57 | a local part without `.`, `_` or `-` and a domain with one dot are spoken as `local at host dot tld` |
| TextNormalizer.EmailNotIdempotent | app/voice_pipeline.py:45-59 | `normalize_email` maps `a@b.cc@d.com` to `a at b dot cc@d.com`, which a second pass changes to `a at b dot cc at d dot com`: the pass is not idempotent |
| TextNormalizer.UrlSound | app/voice_pipeline.py:75 | what the URL scanner finds is a match of the URL pattern |
| TextNormalizer.SchemeForced | app/voice_pipeline.py:75 | when `http://` or `https://` is present at the match start, every match takes it |
| TextNormalizer.DomainFound | app/voice_pipeline.py:75 | a domain group with its dot at `dot` is found, or one with a later dot |
| TextNormalizer.UrlComplete | app/voice_pipeline.py:75 | every URL match at `p` is found with the same scheme group and a dot at or after its dot |
| TextNormalizer.OccursChars | app/voice_pipeline.py:85-88 | whatever occurs in a text is made of that text's characters |
| TextNormalizer.HttpsSpoken | app/voice_pipeline.py:85-86 | the group `https://` is spoken as H T T P S colon slash slash |
| TextNormalizer.HttpSpoken | app/voice_pipeline.py:87-88 | the group `http://` is spoken as H T T P colon slash slash |
| TextNormalizer.SchemeWordsOfMatch | app/voice_pipeline.py:78-88 | a match's scheme group is spoken as HTTPS, HTTP or nothing, according to its length |
| TextNormalizer.HostWordsNoDot | app/voice_pipeline.py:90-97 | no dot of the domain survives into its spoken form |
| TextNormalizer.PathWordsSlash | app/voice_pipeline.py:99-101 | a path is spoken starting ` slash slash`: its leading `/` is said twice |
| TextNormalizer.AreaSound | app/voice_pipeline.py:121 | the area-code stage finds `[\s.-]?\(?\d{3}` |
| TextNormalizer.AreaComplete | app/voice_pipeline.py:121 | every match of `[\s.-]?\(?\d{3}` is the one the area-code stage finds |
| TextNormalizer.ExchangeSound | app/voice_pipeline.py:121 | the exchange stage finds `\)?[\s.-]?\d{3}` |
| TextNormalizer.ExchangeComplete | app/voice_pipeline.py:121 | every match of `\)?[\s.-]?\d{3}` is the one the exchange stage finds |
| TextNormalizer.LineSound | app/voice_pipeline.py:121 | the line stage finds `[\s.-]?\d{4}` |
| TextNormalizer.LineComplete | app/voice_pipeline.py:121 | every match of `[\s.-]?\d{4}` is the one the line stage finds |
| TextNormalizer.RestSound | app/voice_pipeline.py:121 | what the tail scanner finds matches the pattern after the leading group |
| TextNormalizer.RestComplete | app/voice_pipeline.py:121 | the tail of the pattern matches in one way only, and the tail scanner finds it |
| TextNormalizer.LeadFromSound | app/voice_pipeline.py:121 | `\d{1,3}` tried from the longest run down finds a tail after one to k digits |
| TextNormalizer.LeadFromComplete | app/voice_pipeline.py:121 | a tail after j ≤ k digits is not missed |
| TextNormalizer.WithLeadSound | app/voice_pipeline.py:121 | the optional leading group, tried with and then without, yields a tail after it or with no group |
| TextNormalizer.PhoneSound | app/voice_pipeline.py:121 | what the phone scanner finds is a match of the phone pattern |
| TextNormalizer.PhoneComplete | app/voice_pipeline.py:121 | wherever the phone pattern matches, the scanner reports a match |
| TextNormalizer.DialMembers | app/voice_pipeline.py:126 | `re.sub(r'[^\d+]', '', phone)` keeps exactly the digits and `+` signs |
| TextNormalizer.DialAppend | app/voice_pipeline.py:126 | the filter keeps order: filtering a concatenation filters each part |
| TextNormalizer.SpacedJoined | app/voice_pipeline.py:129-134 | the loop's text is the tokens joined by single spaces, plus one trailing space |
| TextNormalizer.JoinedEnds | app/voice_pipeline.py:129-136 | the joined tokens neither start nor end with whitespace |
| TextNormalizer.StripSpaced | app/voice_pipeline.py:129-136 | stripping the loop's text gives the tokens joined by single spaces |
| TextNormalizer.SpeakPhone | app/voice_pipeline.py:124-136 | `replace_phone` returns the kept characters spoken (`+` as plus), one space between tokens, none at the ends |
| TextNormalizer.PhoneNeedsDigits | app/voice_pipeline.py:121-138 | `normalize_phone` leaves text without digits unchanged |
| TextNormalizer.PipelineAppend | app/voice_pipeline.py:155-165 | running a concatenation of passes runs the first part, then the second |
| TextNormalizer.NormalizeText | app/voice_pipeline.py:141-167 | the result is the enabled passes applied in the order email, URL, phone; no flag gives the text back, and emails only gives `normalize_email` |
| AudioProcessor.MsToSamples | app/voice_pipeline.py:195 | `int(sr * ms / 1000)` is the quotient truncated toward zero |
| AudioProcessor.FadeLength | app/voice_pipeline.py:195-200 | a fade never exceeds half the clip |
| AudioProcessor.RampFacts | app/voice_pipeline.py:207-213 | `linspace(0, 1)` and `linspace(1, 0)` stay in [0, 1], start at the start value and end at the stop value |
| AudioProcessor.ScaleInPlace | app/voice_pipeline.py:208 | the in-place product changes the range [lo, lo + len(g)) to its products and nothing else |
| AudioProcessor.ApplyFade | app/voice_pipeline.py:178-215 | the fresh copy is the clip with a rising ramp on its first fade-in samples and a falling one on its last fade-out samples |
| AudioProcessor.FadesDisjoint | app/voice_pipeline.py:199-200 | the fade-in and fade-out ranges never overlap |
| AudioProcessor.FadedKeepsMiddle | app/voice_pipeline.py:203-213 | samples outside both fades are unchanged |
| AudioProcessor.FadedScales | app/voice_pipeline.py:206-213 | every sample is scaled by a factor in [0, 1] |
| AudioProcessor.FadeInStartsSilent | app/voice_pipeline.py:206-208 | a fade-in makes the first sample silent |
| AudioProcessor.FadeOutEndsSilent | app/voice_pipeline.py:211-213 | a fade-out of two or more samples makes the last sample silent |
| AudioProcessor.FadeSamples | app/voice_pipeline.py:178-215 | fading a clip held as a sequence gives the default 10 ms / 50 ms fade |
| AudioProcessor.RunStagesAppend | app/voice_pipeline.py:313-327 | running a concatenation of stages runs the first part, then the second |
| AudioProcessor.EnabledRun | app/voice_pipeline.py:313-329 | the enabled stages are high-pass, de-ess, RMS and fade, each run only when its flag is on, in that order |
| AudioProcessor.ProcessLine | app/voice_pipeline.py:293-329 | the result is the enabled stages applied in order; all flags off returns the clip unchanged |
| VoicePipeline.KeepSlugCharsShorter | app/voice_pipeline.py:553 | removing characters never lengthens the text |
| VoicePipeline.KeepSlugCharsMembers | app/voice_pipeline.py:553 | a character survives exactly when it is in the text and in `[\w\s-]` |
| VoicePipeline.UnderscoreFacts | app/voice_pipeline.py:554 | collapsing whitespace runs to `_` never lengthens, leaves no whitespace, and adds only `_` |
| VoicePipeline.UnderscoreSpaces | app/voice_pipeline.py:554 | text without whitespace is unchanged; text with whitespace gains a `_` |
| VoicePipeline.SlugFacts | app/voice_pipeline.py:553-554 | a slug is at most 30 characters of `\w` and `-`, with no whitespace |
| VoicePipeline.DecimalDigits | app/voice_pipeline.py:556 | `str(n)` is all decimal digits |
| VoicePipeline.DecimalValue | app/voice_pipeline.py:556 | reading back `str(n)` gives `n` |
| VoicePipeline.DecimalLength | app/voice_pipeline.py:556 | `str(n)` has at most three digits exactly when n < 1000 |
| VoicePipeline.Pad3Facts | app/voice_pipeline.py:556 | `{n:03d}` is all digits, reads back as n, and is exactly three long below 1000 and longer from 1000 on |
| VoicePipeline.FilenameIndex | app/voice_pipeline.py:556 | the padded index is the file name up to its first `_` |
| VoicePipeline.FilenamesDistinct | app/voice_pipeline.py:553-557 | lines with different indices get different file names |
| VoicePipeline.SeparatorsAreStripped | app/voice_pipeline.py:405-410 | `strip()` removes the separators U+1C to U+1F as whitespace: two of them before `ab` leave `ab`, and the length guard fires |
| VoicePipeline.GuardBeforeEngine | app/voice_pipeline.py:398-421 | a line fails as too short exactly when its normalised text strips below 3 characters, and exactly then the engine is not called |
| VoicePipeline.ProcessedIsFaded | app/voice_pipeline.py:424-425 | a post-processed clip is a faded clip |
| VoicePipeline.SilenceFacts | app/voice_pipeline.py:429-440 | silence is zeros, `int(sr * ms / 1000)` samples long; it fails exactly when that is negative, never for ms ≥ 0 |
| VoicePipeline.OutputPaths | app/voice_pipeline.py:478-485 | a relative prefix puts the master file and the lines folder under the output directory; an absolute prefix replaces the directory, as pathlib's `/` does, and names both paths itself |
| VoicePipeline.LinePathIsNotMaster | app/voice_pipeline.py:478-485 | a line file never has the master file's path, for a relative or an absolute prefix |
| VoicePipeline.InterleavePositions | app/voice_pipeline.py:512-517 | of the 2N - 1 segments, clips sit at the even positions and silence at every odd one |
| VoicePipeline.ConcatAppend | app/voice_pipeline.py:521 | `torch.cat` of a concatenation is the concatenation of the parts |
| VoicePipeline.InterleaveLength | app/voice_pipeline.py:512-521 | the joined recording has the clips' total length plus N - 1 silences |
| VoicePipeline.FailureSticks | app/voice_pipeline.py:491-517 | once an exception is raised, later passes do nothing |
| VoicePipeline.StepsOk | app/voice_pipeline.py:491-517 | with no exception so far, every line so far made its clip and every pause so far was made |
| VoicePipeline.StepsRequestsInOrder | app/voice_pipeline.py:495-503 | with no exception so far, the requests are the lines' own, in order |
| VoicePipeline.StepsSegments | app/voice_pipeline.py:512-517 | with no exception so far, the segments are the clips with a pause between each pair, and after the last unless it is final |
| VoicePipeline.StepsSucceed | app/voice_pipeline.py:491-517 | the three facts above, together |
| VoicePipeline.StepsMaster | app/voice_pipeline.py:512-521 | after the last pass without an exception, the segments are the clips interleaved with N - 1 pauses |
| VoicePipeline.StepsFiles | app/voice_pipeline.py:505-509 | line files are saved in order under each line's path with its clip, one per line generated, none when saving is off |
| VoicePipeline.StepsFailure | app/voice_pipeline.py:491-517 | an exception comes from the first failing line or the pause after it, and later lines make no request |
| VoicePipeline.StepsRequests | app/voice_pipeline.py:495-503 | each pass adds at most its line's requests |
| VoicePipeline.DialogueStops | app/voice_pipeline.py:491-517 | a call whose loop raises returns that exception with what the loop had done |
| VoicePipeline.EmptyDialogueFails | app/voice_pipeline.py:472-473 | an empty dialogue raises before any request or file |
| VoicePipeline.DialogueMaster | app/voice_pipeline.py:512-533 | on success every line made its clip, the master file is written last, and it is the clips with zero silence between each pair and none after the last |
| VoicePipeline.MasterOfFit | app/voice_pipeline.py:512-521 | the same, for any plan that describes the call |
| VoicePipeline.FitClips | app/voice_pipeline.py:495-503 | with no exception, the plan's clips are the lines' own |
| VoicePipeline.FitGap | app/voice_pipeline.py:516 | the plan's pause is `create_silence`'s zeros |
| VoicePipeline.DialogueLineFiles | app/voice_pipeline.py:491-512 | on success there is one request per line in order, and, when saving, line files 1..N come first, each holding its clip |
| VoicePipeline.FailureIsFirst | app/voice_pipeline.py:491-517 | a failed call raises the first line's exception, or the exception of the pause after it, and later lines make no request |
| VoicePipeline.NoMasterOnFailure | app/voice_pipeline.py:491-524 | a failed call writes no file at the master path, and at most one file per line |
| VoicePipeline.VoicePipeline.GenerateLine | app/voice_pipeline.py:372-427 | returns the line's clip or exception, logging exactly the engine requests it makes |
| VoicePipeline.VoicePipeline.CreateSilence | app/voice_pipeline.py:429-440 | returns `create_silence`'s zeros or its failure |
| VoicePipeline.VoicePipeline.SaveIndividualLine | app/voice_pipeline.py:535-560 | saves the clip at `{index:03d}_{voice}_{slug}.wav` in the lines folder and returns that path |
| VoicePipeline.VoicePipeline.PlayLine | app/voice_pipeline.py:491-517 | one pass of the loop does what the trace's step does |
| VoicePipeline.VoicePipeline.PlayLines | app/voice_pipeline.py:489-517 | the loop ends with the trace's segments, exception, requests and files |
| VoicePipeline.VoicePipeline.DialogueToAudio | app/voice_pipeline.py:442-533 | the result, requests and files are those of `Dialogue` for the call |
| Cli.ValidateArguments | apps/api/main.py:110-144 | no error exactly when the file exists, 1 ≤ exaggeration ≤ 3, 0 ≤ cfg_weight ≤ 1 and silence ≥ 0; otherwise the first failing check's error, in that order |
| Cli.FirstFailureIsFirst | apps/api/main.py:110-144 | the first failure of a list is a failing entry with every earlier entry passing, and none exactly when all pass |
| Cli.ValidateIsFirstFailure | apps/api/main.py:110-144 | `validate_arguments` raises the first failing check of the four |
| Cli.MissingFileWins | apps/api/main.py:120-126 | a missing file is reported whatever the other arguments; every other error is a `ValueError` |
| Cli.BoundsAccepted | apps/api/main.py:128-144 | the range end points and a silence of 0 are accepted, and there is no upper bound on silence |

## Left out

- The text-to-speech model, `torch.load` patching and device selection are not modelled. The
  engine is a function from a request to a clip, or to nothing when it raises.
- `high_pass_filter`, `de_ess` and `normalize_rms` are left abstract, as functions supplied
  with the engine. `high_pass_filter` and the band-pass inside `de_ess` are torchaudio
  biquads. `de_ess` (app/voice_pipeline.py:259-290) and `normalize_rms`
  (app/voice_pipeline.py:218-239) are the pipeline's own code, but they are float32 tensor
  arithmetic: the sibilant-band subtraction, the RMS, the `rms > 1e-8` guard and the
  anti-clipping cap on the scaling factor are not modelled.
- Samples are exact reals, not float32. `int(sr * ms / 1000)` is modelled on exact integers.
  Python computes it through a float division, which can differ for very large products.
- `\d` and `\w` (and `[a-zA-Z]`) are the ASCII classes. Python's `\d` and `\w` are
  Unicode-aware, so non-ASCII digits and letters are not covered: the email local part and
  the `\b` boundaries, the phone digits, and the slug's `[^\w\s-]` filter differ on them.
  `\s`, `str.strip()` and `str.isspace()` follow Python's whitespace set, including the
  separators U+1C to U+1F and the Unicode spaces, so the length guard of `generate_line`
  (app/voice_pipeline.py:406), the short-line warning (apps/api/dialogue_generator.py:76),
  the URL path `[^\s]*` (app/voice_pipeline.py:75) and the slug's `\s+` collapse
  (app/voice_pipeline.py:553-554) agree with Python on them.
- File-system effects are not modelled: directory creation, the existence test (a
  parameter), reading the file (its content or nothing), and `ta.save` (a `SavedFile` in a
  log). Progress prints are not modelled.
- VoicePipeline.MasterPath, VoicePipeline.LinesFolder and VoicePipeline.LinePath model
  pathlib's `/` on POSIX strings: an absolute prefix replaces `outputs`, as in Python.
  pathlib's normalisation (collapsing `//`, dropping `/./` and trailing `/`) is not
  modelled, so a prefix holding those gives the unnormalised spelling of the same file.
- Cli.ValidateArguments: the float arguments are exact reals. argparse also accepts `nan`
  and `inf`, which `validate_arguments` rejects because the range tests are false on them.
  The model cannot represent those values.
- `create_dialogue_audio`, `load_dialogue`, `parse_arguments`, `main` and the HTTP server
  in `apps/api/api_server.py` only wire the core together and are not modelled.
- TextNormalizer.UrlComplete: states that every URL match at a position is found with the
  same scheme group and a dot no earlier than the match's. It does not prove that the found
  match's path group equals the alternative match's.
- TextNormalizer.PhoneComplete: states only that a match is found wherever the phone
  pattern matches. The end of the found match is fixed by PhoneSound and by the uniqueness
  lemmas of each stage, not by this lemma.
- TextNormalizer.NormalizeText: `normalize_email` is not idempotent
  (TextNormalizer.EmailNotIdempotent), so no idempotence is stated for any pass.
