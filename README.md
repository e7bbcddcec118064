# VML audio engine: the script processor

This project models `process_vml_file`, the heart of the VML audio engine. It reads
a script in Voice Markup Language (VML), one directive or narration line at a time,
and produces one narrated audio track. Background music (BGM) and sound effects (SFX)
are mixed over that track. The engine comes in two renderers that share the same
processor:

- `voice_renderer.py` speaks with Piper voice models. Its default voice is "Narrator".
  A voice with no configured model stops the render.
- `voice_renderer_mac_only.py` speaks with the system voices through pyttsx3. Its
  default voice is "Alex". Each new effect cuts the previous effect short where the
  new one starts.

The model (`Timeline.Variant`) covers both renderers at once.

- **Markup** (`markup.dfy`) strips each line and classifies it. The patterns are tried
  in the renderer's order: voice, rate, voice volume, BGM volume, SFX volume, pause,
  BGM, SFX. A line that matches none of them is narration.
- **Timeline** (`timeline.dfy`) is the line loop. Its variables are the settings, the
  pending text, the segments, the BGM ranges, the SFX placements, the open BGM file
  with the index where it started, and the time cursor. Each directive is a
  state-to-state function. The loop and each line handler are methods proved equal to
  those functions.
- **TimelineLemmas** (`timeline_lemmas.dfy`) proves what the loop keeps and what each
  line does.
- **Compositor** (`compositor.dfy`) covers the composition:
  - the voice track and its cue points;
  - each BGM range looped, cut to its span, faded and overlaid at its start cue;
  - the effects overlaid at their times.
- **Audio** (`audio.dfy`) models clips as sequences of samples, one per millisecond.
  It provides silence, slicing, repetition and overlay.
- **Scenario** (`scenario.dfy`) follows one six-line script from its text to its
  timeline.
- **ScenarioRender** (`scenario_render.dfy`) composes that timeline and shows that its
  effect, placed at the end of the track, is not heard.
- **PauseCursor** (`pause_cursor.dfy`) models the time cursor exactly as the source
  writes it (see Findings).

The code outside the processor becomes fields of `Timeline.Env`:

- text-to-speech;
- loading a media file (`None` when the file is not found);
- `float()` on a volume;
- the length of a pause in whole milliseconds;
- gain, low-pass filter, fade-in and fade-out.

The audio maps are only required to keep a clip's length.

## Model

| member | source | states |
|---|---|---|
| Timeline.Synthesize | voice_renderer.py:54-56 | With the Piper renderer, a voice that has no entry, or an empty entry, in the model table fails with that voice's name, and only then. Otherwise synthesis succeeds exactly when the speech backend returns audio. The pyttsx3 renderer never rejects a voice (voice_renderer_mac_only.py:22-31). |
| Timeline.Flush | voice_renderer.py:140-147 | The narration flush before a pause, BGM or SFX line and at the end of input. Its behaviour is stated by TimelineLemmas.FlushAppendsOneVoice. |
| Timeline.DoPause | voice_renderer.py:139-152 | The pause branch: flush, then the silence. Stated by TimelineLemmas.PauseAppendsSilence. |
| Timeline.CloseBgm | voice_renderer.py:164-165 | Recording the open range at the current segment count, also done at the end of input (lines 208-209). Stated by TimelineLemmas.CloseBgmWithin. |
| Timeline.DoBgm | voice_renderer.py:154-169 | The BGM branch: flush, close the open range, open the new file. Stated by TimelineLemmas.BgmOpensRange. |
| Timeline.DoSfx | voice_renderer.py:171-190 | The SFX branch: flush, skip a missing file, trim the previous effect (pyttsx3 only, voice_renderer_mac_only.py:124-127), place the new one. Stated by TimelineLemmas.SfxPlacedAtCursor. |
| Timeline.Apply | voice_renderer.py:111-196 | One line of the loop, dispatched on its recognised kind. Stated by TimelineLemmas.SettingChangesOnlyItself, PlainLineIsNarration and StepConsistent. |
| Timeline.Run | voice_renderer.py:110-196 | The loop over the lines, stopping at the first error. Stated by TimelineLemmas.RunConsistent and RunExtends, and Timeline.RunAbortsAt. |
| Timeline.Finish | voice_renderer.py:198-209 | The final flush and the closing of the open range. Stated by TimelineLemmas.BuildWellFormed and Scenario.BuildAfterRun. |
| Timeline.Build | voice_renderer.py:110-209 | The loop followed by the finish. Stated by TimelineLemmas.BuildWellFormed and BgmVolumeIsLastSet. |
| Timeline.Compile | voice_renderer.py:107-209 | The script's lines recognised and built. Stated by TimelineLemmas.NarrationOnlyScript and Scenario.ScriptCompiles. |
| TimelineLemmas.FlushAppendsOneVoice | voice_renderer.py:140-147 | Flushing empty pending text changes nothing. Otherwise the flush appends exactly one voice segment, the synthesis of the text with the voice, rate and voice volume in force. The cursor advances by that segment's length and the text is cleared. Nothing else changes. The flush fails exactly when synthesis fails, and an unknown Piper voice fails with its name. |
| TimelineLemmas.PauseAppendsSilence | voice_renderer.py:149-151 | After the flush, a pause appends exactly one silent segment of the parsed length and advances the cursor by the same length. An unparsable length aborts the run. Nothing else changes. |
| TimelineLemmas.BgmOpensRange | voice_renderer.py:155-168 | A BGM line always succeeds once the flush does. The range still open is recorded as ending at the current segment count, and the new file opens at that index. Nothing else changes. |
| TimelineLemmas.CloseBgmWithin | voice_renderer.py:164-165 | Closing a range appends exactly (file, start, current segment count) when a file is open, and nothing otherwise. The ranges stay ordered and within the segments. |
| TimelineLemmas.SfxPlacedAtCursor | voice_renderer_mac_only.py:102-131 | After the flush, an effect file that is not found changes nothing. A found one is appended at the cursor with the SFX gain, and the cursor does not move. With pyttsx3 the earlier placements become exactly `TrimLast` of them. The previous placement keeps its start and exactly the cursor minus its start milliseconds of its clip, or all of it when it already ends by then. With Piper every earlier placement is untouched (voice_renderer.py:171-190). |
| Timeline.TrimLast | voice_renderer_mac_only.py:124-127 | The cut keeps every placement but the last. The last keeps its start time and becomes the prefix of its clip of length max(0, now minus start), or the whole clip when that is shorter. So it ends no later than `now`, and a clip that already ends by then is left whole. |
| TimelineLemmas.SettingChangesOnlyItself | voice_renderer.py:119-137 | A voice, rate or volume line changes its own setting to the captured value and nothing else. Only a volume that does not parse aborts the run. |
| TimelineLemmas.PlainLineIsNarration | voice_renderer.py:111-113 | A blank stripped line is skipped. Any other line that matches no directive is appended to the pending text after one space. Nothing else changes. |
| TimelineLemmas.FlushConsistent | voice_renderer.py:140-147 | The flush keeps the loop invariant: the cursor equals the total length of the segments, ranges lie within the segments, and effects sit on cue points in order. The flush only extends the state. |
| TimelineLemmas.PauseConsistent | voice_renderer.py:139-152 | A pause line keeps the loop invariant and only extends the state. |
| TimelineLemmas.BgmConsistent | voice_renderer.py:154-169 | A BGM line keeps the loop invariant and only extends the state. |
| TimelineLemmas.SfxConsistent | voice_renderer.py:171-190 | An SFX line keeps the loop invariant, including no overlap between effects with pyttsx3. It only extends the state. |
| TimelineLemmas.SfxExtends | voice_renderer_mac_only.py:124-129 | The state after an SFX line extends the state after its flush. Only the last earlier effect may be shortened. |
| TimelineLemmas.PlaceAtEnd | voice_renderer_mac_only.py:124-129 | A placement at the end of the track keeps the effects on cue points and in order. With trimming, it keeps them from overlapping. |
| TimelineLemmas.StepConsistent | voice_renderer.py:110-196 | Every kind of line keeps the loop invariant and only extends the state. |
| TimelineLemmas.RunConsistent | voice_renderer.py:110-196 | After any prefix of the script that did not fail, the loop invariant holds. In particular the cursor is the length of the track built so far. |
| TimelineLemmas.RunExtends | voice_renderer.py:110-196 | The state after a prefix is extended by the state after the whole script: segments and ranges are only appended to, effect times never change, and only clips get shorter. |
| Timeline.RunAbortsAt | voice_renderer.py:110-196 | The first line that fails ends the run with its error. The lines after it have no effect. |
| Timeline.RunOneMore | voice_renderer.py:110-196 | The run of one more line is that line's step applied to the state so far. |
| TimelineLemmas.BuildWellFormed | voice_renderer.py:199-209 | Any timeline that compiles has these properties. Its ranges are ordered, lie within the segments and name a file. Its effects sit on cue points within the track, in time order, and do not overlap with pyttsx3. |
| TimelineLemmas.BgmVolumeIsLastSet | voice_renderer.py:131-133 | Every range is mixed at the BGM volume of the last `[bgm_volume:]` line of the script, not the volume in force when the range was opened. |
| TimelineLemmas.RunBgmVolume | voice_renderer.py:131-133 | After any prefix, the BGM volume in force is the one the last volume line of that prefix set. |
| TimelineLemmas.ApplyBgmVolume | voice_renderer.py:131-133 | Only a BGM volume line changes the BGM volume, and it sets the parsed value. |
| TimelineLemmas.LastBgmVolumeGrows | voice_renderer.py:131-133 | A line that does not set the BGM volume leaves the last volume set unchanged. |
| TimelineLemmas.JoinedEmpty | voice_renderer.py:196 | The accumulated narration is empty exactly when every line was blank. |
| TimelineLemmas.NarrationOnlyRun | voice_renderer.py:110-196 | Blank and narration lines only accumulate text. They add no segment, range or effect, and the settings stay at their defaults. |
| TimelineLemmas.PlainLinesRecognized | voice_renderer.py:111-113 | A line that matches no directive is recognised as blank exactly when it strips to nothing, and as narration otherwise. |
| TimelineLemmas.NarrationOnlyBuild | voice_renderer.py:199-205 | Narration alone builds exactly one voice segment, the synthesis of all the text with the default settings. It builds nothing when every line is blank, and fails when synthesis fails. |
| TimelineLemmas.NarrationOnlyScript | voice_renderer.py:92-105 | A script with no directives compiles to one voice segment as long as the whole timeline, or to an empty timeline when every line is blank. The result has no ranges, no effects and the default BGM volume of 0.4. |
| TimelineLemmas.DurationAppend | voice_renderer.py:146 | Appending a segment adds its length to the total duration. |
| TimelineLemmas.EndIsCue | voice_renderer.py:189 | The cursor position at the end of the segments is a cue point. |
| TimelineLemmas.OnCueGrows | voice_renderer.py:218-220 | A cue point stays a cue point when a segment is appended. |
| TimelineLemmas.PlacedInOrderGrows | voice_renderer.py:189 | Appending a segment keeps the effects on cue points and in order. |
| TimelineLemmas.ExtendsTrans | voice_renderer.py:110-196 | "Later state of the same run" is transitive. |
| Timeline.Recognize | voice_renderer.py:110-113 | There is one recognised directive per line of the file. |
| Timeline.AudioOf | voice_renderer.py:150 | A segment's audio lasts its length; a pause is silence of its whole milliseconds. |
| Timeline.FlushNarration | voice_renderer.py:140-147 | The flush method computes exactly the flush specification. |
| Timeline.PauseLine | voice_renderer.py:139-152 | The pause branch computes exactly the pause specification. |
| Timeline.BgmLine | voice_renderer.py:154-169 | The BGM branch computes exactly the BGM specification. |
| Timeline.SfxLine | voice_renderer_mac_only.py:102-131 | The SFX branch, including the trim, computes exactly the SFX specification. |
| Timeline.StepLine | voice_renderer.py:110-196 | One pass of the loop body computes exactly one step of the specification. |
| Timeline.BuildTimeline | voice_renderer.py:110-209 | The loop and the final flush and close compute exactly the timeline specification. |
| Timeline.FinishTimeline | voice_renderer.py:199-209 | The final flush and the closing of the open range compute exactly their specification. |
| Timeline.CompileScript | voice_renderer.py:107-209 | Reading a script's lines into a timeline computes exactly their specification. |
| Markup.Strip | voice_renderer.py:111 | The stripped line is no longer than the input, and is empty or has no whitespace at either end. |
| Markup.TrimStart | voice_renderer.py:111 | The result starts with a non-space character or is empty. |
| Markup.TrimStartDropsSpace | voice_renderer.py:111 | Left-stripping keeps a suffix, and everything it drops is whitespace. |
| Markup.TrimEnd | voice_renderer.py:111 | The result ends with a non-space character or is empty. |
| Markup.TrimEndDropsSpace | voice_renderer.py:111 | Right-stripping keeps a prefix, and everything it drops is whitespace. |
| Markup.StripKeepsClean | voice_renderer.py:111 | A line without whitespace at either end is left as it is. |
| Markup.UpToBracket | voice_renderer.py:119 | A lazy capture up to `]` returns the prefix before the first `]`, with no line feed in it. It fails only when every `]` comes after a line feed. |
| Markup.UpToBracketOf | voice_renderer.py:119 | Text with no `]` or line feed, followed by `]`, is captured exactly. |
| Markup.Capture | voice_renderer.py:119 | A match means the line starts with `[tag:`, then the captured value, then `]`, and the value holds no `]`. A failed match with the right opening means every `]` comes after a line feed. |
| Markup.CaptureOf | voice_renderer.py:119 | `[tag:w]...` captures exactly w when w holds no `]` or line feed. |
| Markup.Mismatch | voice_renderer.py:119-171 | A line that differs from `[tag:` matches neither pattern for that tag. |
| Markup.DigitRun | voice_renderer.py:123 | The digit run is the longest prefix made only of digits. |
| Markup.RateShapeIsDigitRun | voice_renderer.py:123 | A rate match consumes exactly the maximal digit run. |
| Markup.CaptureDigits | voice_renderer.py:123-124 | The rate pattern matches exactly when `[rate:` is followed by one or more digits and then `]`. The captured value is all digits. |
| Markup.Classify | voice_renderer.py:111-196 | A line is blank exactly when it is empty after stripping. Narration carries the line itself. |
| Markup.NarrationExactly | voice_renderer.py:196 | A line is narration exactly when it is non-empty and matches none of the eight patterns. |
| Markup.DigitsValue | voice_renderer.py:124 | The decimal value of a run of ASCII digits, used for the rate. |
| Markup.RateValueRejected | voice_renderer.py:123 | The rate pattern captures nothing from `[rate:x]` when x has no `]` and is empty or holds a non-digit. |
| Markup.RateMustBeDigits | voice_renderer.py:123 | `[rate:x]` where x is empty or holds any non-digit (`[rate:fast]`, `[rate:12a]`, `[rate:1.5]`) matches no pattern and becomes narration. |
| Markup.UnbracketedIsNarration | voice_renderer.py:196 | A line not starting with `[` is narration. |
| Audio.Silent | voice_renderer.py:150 | Silence of n ms has n samples, all zero. |
| Audio.Take | voice_renderer.py:236 | A slice is a prefix of the clip, of length min(n, clip length). |
| Audio.Repeat | voice_renderer.py:235 | A clip played k times back to back. Stated by Audio.RepeatLength and Audio.RepeatAt. |
| Audio.Loop | voice_renderer.py:235-236 | The music source repeated once more than fits the span, then cut to the span. Stated by Audio.LoopIsExact. |
| Audio.RepeatLength | voice_renderer.py:235 | A clip repeated k times is k times as long. |
| Audio.RepeatAt | voice_renderer.py:235 | Sample i of the repetition is sample i mod the length of the clip. |
| Audio.LoopIsExact | voice_renderer.py:235-236 | The looped-and-cut music has exactly the span's duration, and sample i is source sample i mod the source length. |
| Audio.Overlay | voice_renderer.py:239 | An overlay keeps the base's length. Samples under the clip are base plus clip, and all others are unchanged. |
| Compositor.Track | voice_renderer.py:215-219 | The voice track lasts the total length of the segments. |
| Compositor.CuePoints | voice_renderer.py:216-220 | There is one cue point per segment plus the initial 0. |
| Compositor.CuePointsAreBoundaries | voice_renderer.py:216-220 | Cue point j is the length of the first j segments, which is where segment j starts. |
| Compositor.TrackAt | voice_renderer.py:218-220 | Segment j's audio lies in the track exactly between cue points j and j + 1. |
| Compositor.TrackPrefix | voice_renderer.py:218-219 | The track of the first k segments is the start of the whole track. |
| Compositor.DurationMonotone | voice_renderer.py:218-220 | Cue points never decrease. |
| Compositor.BuildTrack | voice_renderer.py:215-220 | The segment loop builds exactly the track and the cue points. |
| Compositor.BgmClip | voice_renderer.py:235-237 | The music clip for a span lasts exactly the span. |
| Compositor.Span | voice_renderer.py:231-233 | A range plays from the cue point of its start index to that of its end index. |
| Compositor.AddBgm | voice_renderer.py:225-239 | Laying one range keeps the mix's length. A missing file is skipped. An empty file, and only an empty file, fails with that file's name (the floor division by zero). |
| Compositor.BgmSpansRange | voice_renderer.py:224-239 | A range whose file has music adds that music to exactly the samples between its two cue points and changes no other sample. |
| Compositor.LayBgm | voice_renderer.py:225-239 | One pass of the BGM loop computes exactly the range specification. |
| Compositor.MixBgm | voice_renderer.py:224-239 | Laying all ranges keeps the track's length. |
| Compositor.MixBgmFails | voice_renderer.py:224-239 | Laying the music fails exactly when some range's file is empty. It then fails with the first such file, and every range before it was laid. |
| Compositor.MixBgmAbortsAt | voice_renderer.py:224-239 | Once a prefix of the ranges fails, the whole BGM pass fails the same way. |
| Compositor.MissingBgmSkipped | voice_renderer.py:227-229 | Ranges whose file is not found are skipped: the mix equals the mix of the found ranges alone. |
| Compositor.Found | voice_renderer.py:227-229 | The found ranges are ranges of the script whose files load. |
| Compositor.FoundInTrack | voice_renderer.py:227-229 | The found ranges lie within the track. |
| Compositor.WithinIsInTrack | voice_renderer.py:231-232 | Every range the line loop records indexes valid cue points. |
| Compositor.InTrackPrefix | voice_renderer.py:224 | A prefix of in-track ranges is in the track. |
| Compositor.LayAllBgm | voice_renderer.py:224-239 | The BGM loop computes exactly the BGM mix specification. |
| Compositor.MixBgmKeepsRest | voice_renderer.py:224-239 | Music changes no sample outside the spans of the ranges. |
| Compositor.MixSfx | voice_renderer.py:241-242 | Laying the effects keeps the mix's length. |
| Compositor.MixSfxKeepsRest | voice_renderer.py:241-242 | Effects change no sample outside themselves. |
| Compositor.LayAllSfx | voice_renderer.py:241-242 | The SFX loop computes exactly the SFX mix specification. |
| Compositor.Mix | voice_renderer.py:222-242 | A successful mix lasts as long as the voice track. |
| Compositor.RenderCompiled | voice_renderer.py:90-242 | A script that compiles has its music ranges inside the track, and its render is the composition of the compiled timeline. |
| Compositor.LateEffectsUnheard | voice_renderer.py:241-242 | Effects placed at or after the end of the mix change nothing, because an overlay keeps the base's length. |
| Compositor.EffectsAtEndUnheard | voice_renderer.py:222-242 | When every effect starts at the end of the track, the output is the music mix alone. |
| Compositor.NarrationUntouched | voice_renderer.py:222-242 | Where no music and no effect plays, the output is the narration track itself. |
| Compositor.Composite | voice_renderer.py:222-242 | The composition computes exactly the mix specification. |
| Compositor.RenderOutcome | voice_renderer.py:90-242 | The render fails with the compile error when the script fails. Otherwise it fails exactly when some recorded range's file is empty, and a successful render lasts as long as the narration track. |
| Compositor.Render | voice_renderer.py:90-242 | The compiled script composed into the output audio. Stated by Compositor.RenderOutcome. |
| Compositor.ProcessVmlFile | voice_renderer.py:90-242 | The whole processor computes exactly the render specification. The fade length defaults to 2000 ms, as in the source (`Compositor.DefaultFadeMs`). |
| Scenario.DirectiveLineIsStripped | voice_renderer.py:111 | `[tag:w]` is unchanged by stripping. |
| Scenario.ReadsVoice | voice_renderer.py:119-121 | `[voice:w]` sets the voice to w. |
| Scenario.ReadsPause | voice_renderer.py:139 | `[pause:w]` is a pause line: the five patterns tried before it do not match. |
| Scenario.ReadsBgm | voice_renderer.py:154 | `[bgm:w]` is a BGM line, even though the `[bgm_volume:` pattern comes first. |
| Scenario.ReadsSfx | voice_renderer.py:171 | `[sfx:w]` is an SFX line, even though the `[sfx_volume:` pattern comes first. |
| Scenario.ReadsDirectiveLines | voice_renderer.py:111-171 | Each directive line of the script is stripped and classified as its directive. |
| Scenario.ReadsProse | voice_renderer.py:196 | A prose line is recognised as narration of itself. |
| Scenario.RecognizeSix | voice_renderer.py:110-111 | Recognition treats each line on its own. |
| Scenario.SixAsHalves | voice_renderer.py:110-196 | Six recognised lines, equal one by one to the expected directives, form the script's two halves of three. |
| Scenario.ScriptRecognized | voice_renderer.py:110-196 | The six-line script is recognised line by line as voice, narration, pause, BGM, narration, SFX. |
| Scenario.FlushSynthesized | voice_renderer.py:140-147 | Pending text that the backend synthesizes becomes one voice segment with the voice gain, and the cursor moves past it. |
| Scenario.FirstEffectPlaced | voice_renderer_mac_only.py:124-129 | With no earlier effect, both renderers place the effect at the cursor with the SFX gain and cut nothing. |
| Scenario.PauseAfterFirst | voice_renderer.py:139-152 | The pause line flushes the first narration, then appends its silence. |
| Scenario.EffectAfterSecond | voice_renderer.py:171-190 | The SFX line flushes the second narration, then places the effect right after it. |
| Scenario.OpeningLines | voice_renderer.py:119-121 | The voice line and the first narration only set the voice and buffer the text. |
| Scenario.MiddleLines | voice_renderer.py:154-169 | The BGM line opens a range at segment 2; the second narration is buffered. |
| Scenario.RunSnoc | voice_renderer.py:110 | Running one more line applies that line's step to the state reached so far. |
| Scenario.RunToPause | voice_renderer.py:110-152 | The first three lines produce the first voice segment and the pause, with the cursor at their total length. |
| Scenario.RunToSecond | voice_renderer.py:154-196 | After the pause, the BGM line and the second narration open the range and buffer the text. |
| Scenario.RunFromPause | voice_renderer.py:154-190 | After the pause, the last three lines add the second voice segment and place the effect at the cursor after it. |
| Scenario.ScriptRuns | voice_renderer.py:110-196 | The loop over the whole script ends with three segments, the music open from segment 2, and the effect at the end of the second narration. |
| Scenario.BuildAfterRun | voice_renderer.py:199-209 | The timeline is what the final flush and BGM close make of the loop's state. |
| Scenario.ScriptBuilds | voice_renderer.py:199-209 | The final close records the music range as segments 2 to 3. |
| Scenario.CompileRecognized | voice_renderer.py:107-209 | A script compiles as the timeline built from its recognised lines. |
| Scenario.ScriptCompiles | voice_renderer.py:107-209 | The six-line script compiles to three segments, one BGM range over segment 2, and one effect at the end of the second narration. |
| ScenarioRender.ScriptEffectUnheard | voice_renderer.py:171-242 | For a timeline of the shape the script compiles to (two segments, then the second narration, the music over it, the effect where that narration ends), the composed output equals the music mix alone: none of the effect is heard. |
| PauseCursor.CursorOutrunsTrack | voice_renderer.py:149-151 | As written, two 1234.5 ms pauses append 2468 ms of silence but leave the cursor at an effect position of 2469. |
| PauseCursor.DriftBound | voice_renderer.py:149-151 | As written, the cursor is never behind the silence appended. It is ahead by less than one millisecond per pause. |
| PauseCursor.WholePausesAgree | voice_renderer.py:149-151 | With whole-millisecond pauses, the cursor as written equals the silence appended. |

## Left out

- Speech synthesis itself is a parameter of the model. This covers the Piper subprocess, the model file path, the temporary WAV and the rate change by frame-rate resampling. It also covers the pyttsx3 engine and its substring match on voice names (voice_renderer_mac_only.py:22-31). Only the Piper model-table lookup is modelled, because it decides whether the render stops.
- `db_from_volume` (the logarithm), the low-pass filter, the fades and the gain are abstract maps that keep a clip's length. Decibel arithmetic and floating point are left out.
- Audio.Overlay: samples are added as unbounded integers. pydub's clipping to the sample width and its frame rates and channels are left out.
- Volume parsing (`float()`) is a parameter that returns `None` on a string `float` rejects. The model does not fix which strings parse.
- Pause lengths are parsed by a parameter into whole milliseconds. A negative pause is left out, because what pydub does with a negative duration is not part of this model. The fractional part is left out as well; Findings says why.
- `\d` is modelled as the ASCII digits only. The other Unicode decimal digits it also matches are left out. Stripping uses the full whitespace set of `str.isspace`.
- The model covers reading the file into lines, exporting the MP3, the console messages, the temporary files and the command-line entry point only as inputs and results. The processor takes the lines and returns the audio or the error.
- Media loading returns `None` for a file that is not found, which the source skips. Other decoding errors are not modelled.
- The music file of a range with an empty source stops the render. The source raises ZeroDivisionError at `duration // len(bgm)`; the model returns `EmptyBgmSource`.
- The pyttsx3 renderer's `current_sfx_end` variable is written but never read, so it is not modelled.
- The pyttsx3 renderer computes a range's cue points before loading its file (voice_renderer_mac_only.py:156-166). Nothing observable depends on that order, so the model keeps one order.
- All lines are classified before the loop runs (`Timeline.Recognize`) rather than one by one inside it. Classification depends on the line alone, so the result is the same.
- Timeline.TrimLast: the cut length is an integer number of ms. The source computes it from a float cursor; with whole-millisecond pauses the two agree (PauseCursor.WholePausesAgree).
- Scenario.ScriptRuns, Scenario.ScriptBuilds and Scenario.ScriptCompiles start from the state after the pause line, passed in as a requirement. Scenario.RunToPause proves that state separately.

## Findings

| source | as written | input that shows it | evidently intended | confidence | as-written member | corrected member |
|---|---|---|---|---|---|---|
| voice_renderer.py:149-151 | A pause appends silence of `int(pause_ms)` but advances the cursor by the float `pause_ms`. Effects are then overlaid at `int(current_time)` (line 242). The same code is in voice_renderer_mac_only.py:83-85. | Two `[pause:1.2345]` lines followed by `[sfx:x]`: the track has 2468 ms of silence, but the effect lands at 2469 ms. The drift grows by up to 1 ms per fractional pause. | The cursor equals the length of the track so far, so an effect starts exactly where the preceding segment ends. | not executed | PauseCursor.CursorOutrunsTrack | TimelineLemmas.PauseAppendsSilence |
