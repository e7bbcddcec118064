/**
  The line-by-line state machine of `process_vml_file`: it turns a VML script into a
  timeline of voice and pause segments, background-music (BGM) ranges over segment
  indices, and sound-effect (SFX) placements at absolute times.

  Both renderers share it. `Piper` is voice_renderer.py (Piper voices, default voice
  "Narrator", an unknown voice aborts the run, effects may overlap); `Pyttsx3` is
  voice_renderer_mac_only.py (system voices, default voice "Alex", each new effect
  trims the one before it).
*/
module Timeline {
  import opened Wrappers
  import opened Audio
  import opened Markup

  datatype Variant = Piper | Pyttsx3

  function DefaultVoice(v: Variant): string
  {
    if v == Piper then "Narrator" else "Alex"
  }

  /** Only the system-voice renderer cuts the previous effect where the next one starts. */
  predicate TrimsSfx(v: Variant)
  {
    v == Pyttsx3
  }

  /** The Piper voice table: voice name to model file. */
  const PiperModels: map<string, string> := map[
    "Alex" := "voices/en_US-alex.onnx",
    "Samantha" := "voices/en_US-samantha.onnx",
    "Narrator" := "voices/en_GB-narrator.onnx",
    "Hero" := "voices/en_US-hero.onnx",
    "Villain" := "voices/en_US-villain.onnx"]

  /** `PIPER_MODELS.get(voice_name)` is truthy. */
  predicate HasPiperModel(voice: string)
  {
    voice in PiperModels && PiperModels[voice] != ""
  }

  /**
    What the renderer asks of the world. Synthesis, media loading and the float
    parser may fail; the audio effects always succeed and keep a clip's length.
  */
  datatype Env = Env(
    synthesize: (string, string, nat) -> Option<Clip>, // text, voice, rate
    load: string -> Option<Clip>,                      // None: file not found
    parseFloat: string -> Option<real>,                // `float(s)`; None: ValueError
    pauseMillis: string -> Option<nat>,                // `int(float(s) * 1000)`, whole ms
    gain: GainMap,
    lowPass: ClipMap,
    fadeIn: FadeMap,
    fadeOut: FadeMap)

  /** Why a run is aborted. */
  datatype Error =
    | UnknownVoice(voice: string)    // ValueError from the Piper voice lookup
    | SynthesisFailed(text: string)  // the synthesis backend failed
    | BadNumber(text: string)        // `float(...)` rejected a volume or pause value
    | EmptyBgmSource(path: string)   // `duration // len(bgm)` with an empty music file

  datatype Settings = Settings(voice: string, rate: nat, voiceVolume: real, bgmVolume: real, sfxVolume: real)

  function DefaultSettings(v: Variant): Settings
  {
    Settings(DefaultVoice(v), 180, 1.0, 0.4, 1.0)
  }

  /** An entry of `segments`: synthesized narration, or silence of a number of milliseconds. */
  datatype Segment = Voice(audio: Clip) | Pause(ms: nat)

  function Length(s: Segment): nat
  {
    match s
    case Voice(a) => |a|
    case Pause(ms) => ms
  }

  /** The audio of a segment (`AudioSegment.silent` for a pause). */
  function AudioOf(s: Segment): (r: Clip)
    ensures |r| == Length(s)
  {
    match s
    case Voice(a) => a
    case Pause(ms) => Silent(ms)
  }

  /** The total length of a run of segments. */
  function Duration(segs: seq<Segment>): nat
  {
    if segs == [] then 0 else Duration(segs[..|segs| - 1]) + Length(segs[|segs| - 1])
  }

  /** A background-music range `(file, start_idx, end_idx)` over segment indices. */
  datatype BgmRange = BgmRange(file: string, start: nat, end: nat)

  /** A sound-effect placement `(clip, time)`; the clip already carries the effect gain. */
  datatype SfxPlacement = SfxPlacement(clip: Clip, time: nat)

  /** The local variables of the line loop. `currentBgm == ""` stands for `current_bgm = None`. */
  datatype State = State(
    settings: Settings,
    text: string,
    segments: seq<Segment>,
    bgmRanges: seq<BgmRange>,
    sfx: seq<SfxPlacement>,
    currentBgm: string,
    bgmStart: nat,
    currentTime: nat)

  function Initial(v: Variant): State
  {
    State(DefaultSettings(v), "", [], [], [], "", 0, 0)
  }

  /** What the compositor receives: the three lists and the last BGM volume set. */
  datatype Timeline = Timeline(
    segments: seq<Segment>,
    bgmRanges: seq<BgmRange>,
    sfx: seq<SfxPlacement>,
    bgmVolume: real)

  /**
    `synthesize_text` followed by loading the result and adding the voice gain. The
    Piper renderer aborts on a voice it has no model for; the system-voice renderer
    accepts any name.
  */
  function Synthesize(env: Env, v: Variant, text: string, s: Settings): (r: Result<Clip, Error>)
    ensures r == Err(UnknownVoice(s.voice)) <==> v == Piper && !HasPiperModel(s.voice)
    ensures r.Ok? <==> !(v == Piper && !HasPiperModel(s.voice)) && env.synthesize(text, s.voice, s.rate).Some?
  {
    if v == Piper && !HasPiperModel(s.voice) then Err(UnknownVoice(s.voice))
    else match env.synthesize(text, s.voice, s.rate)
      case None => Err(SynthesisFailed(text))
      case Some(raw) => Ok(env.gain(raw, s.voiceVolume))
  }

  /** The narration flush done before a pause, a bgm or an sfx directive and at end of input. */
  function Flush(env: Env, v: Variant, st: State): Result<State, Error>
  {
    if st.text == "" then Ok(st)
    else match Synthesize(env, v, st.text, st.settings)
      case Err(e) => Err(e)
      case Ok(clip) => Ok(st.(
        segments := st.segments + [Voice(clip)],
        currentTime := st.currentTime + |clip|,
        text := ""))
  }

  /** `[pause:s]`: flush, then one silent segment. */
  function DoPause(env: Env, v: Variant, st: State, seconds: string): Result<State, Error>
  {
    match Flush(env, v, st)
    case Err(e) => Err(e)
    case Ok(f) =>
      match env.pauseMillis(seconds)
      case None => Err(BadNumber(seconds))
      case Some(ms) => Ok(f.(segments := f.segments + [Pause(ms)], currentTime := f.currentTime + ms))
  }

  /** Records the open BGM range, ending at the current segment count, if one is open. */
  function CloseBgm(st: State): seq<BgmRange>
  {
    if st.currentBgm != "" then st.bgmRanges + [BgmRange(st.currentBgm, st.bgmStart, |st.segments|)]
    else st.bgmRanges
  }

  /** `[bgm:path]`: flush, close the open range, open a new one at the current segment count. */
  function DoBgm(env: Env, v: Variant, st: State, path: string): Result<State, Error>
  {
    match Flush(env, v, st)
    case Err(e) => Err(e)
    case Ok(f) => Ok(f.(bgmRanges := CloseBgm(f), currentBgm := path, bgmStart := |f.segments|))
  }

  /**
    The system-voice renderer's trim: the last placement keeps its start and the first
    max(0, now - start) milliseconds of its clip (all of it when the clip is shorter).
  */
  function TrimLast(ps: seq<SfxPlacement>, now: nat): (r: seq<SfxPlacement>)
    requires ps != []
    ensures |r| == |ps| && r[..|ps| - 1] == ps[..|ps| - 1]
    ensures r[|ps| - 1].time == ps[|ps| - 1].time && r[|ps| - 1].clip <= ps[|ps| - 1].clip
    ensures ps[|ps| - 1].time <= now ==> r[|ps| - 1].time + |r[|ps| - 1].clip| <= now
    ensures ps[|ps| - 1].time + |ps[|ps| - 1].clip| <= now ==> r == ps
    ensures |r[|ps| - 1].clip| ==
      if now <= ps[|ps| - 1].time then 0
      else if ps[|ps| - 1].time + |ps[|ps| - 1].clip| <= now then |ps[|ps| - 1].clip|
      else now - ps[|ps| - 1].time
  {
    var last := ps[|ps| - 1];
    var keep := if now - last.time > 0 then now - last.time else 0;
    ps[..|ps| - 1] + [SfxPlacement(Take(last.clip, keep), last.time)]
  }

  /** `[sfx:path]`: flush; then, if the file loads, place it at the current time. */
  function DoSfx(env: Env, v: Variant, st: State, path: string): Result<State, Error>
  {
    match Flush(env, v, st)
    case Err(e) => Err(e)
    case Ok(f) =>
      match env.load(path)
      case None => Ok(f)
      case Some(raw) =>
        var clip := env.gain(raw, f.settings.sfxVolume);
        var kept := if TrimsSfx(v) && f.sfx != [] then TrimLast(f.sfx, f.currentTime) else f.sfx;
        Ok(f.(sfx := kept + [SfxPlacement(clip, f.currentTime)]))
  }

  /** Each script line stripped and recognised, in file order. */
  function Recognize(lines: seq<string>): (ds: seq<Directive>)
    ensures |ds| == |lines|
  {
    seq(|lines|, k requires 0 <= k < |lines| => Classify(Strip(lines[k])))
  }

  /** The effect of one recognised line on the loop's variables. */
  function Apply(env: Env, v: Variant, st: State, d: Directive): Result<State, Error>
  {
    match d
    case Blank => Ok(st)
    case SetVoice(name) => Ok(st.(settings := st.settings.(voice := name)))
    case SetRate(n) => Ok(st.(settings := st.settings.(rate := n)))
    case SetVoiceVolume(s) =>
      (match env.parseFloat(s)
       case None => Err(BadNumber(s))
       case Some(x) => Ok(st.(settings := st.settings.(voiceVolume := x))))
    case SetBgmVolume(s) =>
      (match env.parseFloat(s)
       case None => Err(BadNumber(s))
       case Some(x) => Ok(st.(settings := st.settings.(bgmVolume := x))))
    case SetSfxVolume(s) =>
      (match env.parseFloat(s)
       case None => Err(BadNumber(s))
       case Some(x) => Ok(st.(settings := st.settings.(sfxVolume := x))))
    case PauseFor(s) => DoPause(env, v, st, s)
    case PlayBgm(path) => DoBgm(env, v, st, path)
    case PlaySfx(path) => DoSfx(env, v, st, path)
    case Narration(t) => Ok(st.(text := st.text + " " + t))
  }

  /** The line loop over the recognised lines of a prefix of the script; the first failure aborts. */
  function Run(env: Env, v: Variant, ds: seq<Directive>): Result<State, Error>
  {
    if ds == [] then Ok(Initial(v))
    else match Run(env, v, ds[..|ds| - 1])
      case Err(e) => Err(e)
      case Ok(st) => Apply(env, v, st, ds[|ds| - 1])
  }

  /** After the loop: final flush, then close the open BGM range at the final segment count. */
  function Finish(env: Env, v: Variant, st: State): Result<Timeline, Error>
  {
    match Flush(env, v, st)
    case Err(e) => Err(e)
    case Ok(f) => Ok(Timeline(f.segments, CloseBgm(f), f.sfx, f.settings.bgmVolume))
  }

  /** The timeline a run of recognised lines builds, or the error that aborts it. */
  function Build(env: Env, v: Variant, ds: seq<Directive>): Result<Timeline, Error>
  {
    match Run(env, v, ds)
    case Err(e) => Err(e)
    case Ok(st) => Finish(env, v, st)
  }

  /** The timeline a script compiles to, or the error that aborts it. */
  function Compile(env: Env, v: Variant, lines: seq<string>): Result<Timeline, Error>
  {
    Build(env, v, Recognize(lines))
  }

  // ---------------------------------------------------------------------------
  // What the loop keeps true
  // ---------------------------------------------------------------------------

  /**
    Recorded BGM ranges each name a file, never run backwards and end by `limit`,
    and each one ends no later than the next one starts.
  */
  predicate RangesWithin(rs: seq<BgmRange>, limit: nat)
  {
    && (forall k :: 0 <= k < |rs| ==> rs[k].file != "" && rs[k].start <= rs[k].end <= limit)
    && (forall k :: 0 <= k < |rs| - 1 ==> rs[k].end <= rs[k + 1].start)
  }

  /** t is a cue point of segs: the total length of some prefix of the segments. */
  predicate OnCue(t: nat, segs: seq<Segment>)
  {
    exists j :: 0 <= j <= |segs| && Duration(segs[..j]) == t
  }

  /** Effect placements start on cue points within the track, in non-decreasing time order. */
  predicate PlacedInOrder(ps: seq<SfxPlacement>, segs: seq<Segment>)
  {
    && (forall k :: 0 <= k < |ps| ==> ps[k].time <= Duration(segs) && OnCue(ps[k].time, segs))
    && (forall k :: 0 <= k < |ps| - 1 ==> ps[k].time <= ps[k + 1].time)
  }

  /** Each effect has stopped by the time the next one starts. */
  predicate NoOverlap(ps: seq<SfxPlacement>)
  {
    forall k :: 0 <= k < |ps| - 1 ==> ps[k].time + |ps[k].clip| <= ps[k + 1].time
  }

  /**
    The loop invariant: the time cursor is the length of the segments so far, the
    open range starts within them, the recorded ranges end by its start, and the
    effects are placed in order (without overlap when the renderer trims them).
  */
  predicate Consistent(v: Variant, st: State)
  {
    && st.currentTime == Duration(st.segments)
    && st.bgmStart <= |st.segments|
    && RangesWithin(st.bgmRanges, st.bgmStart)
    && PlacedInOrder(st.sfx, st.segments)
    && (TrimsSfx(v) ==> NoOverlap(st.sfx))
  }

  /** What the compositor relies on: every range and every effect lies within the segments. */
  predicate WellFormed(v: Variant, tl: Timeline)
  {
    && RangesWithin(tl.bgmRanges, |tl.segments|)
    && PlacedInOrder(tl.sfx, tl.segments)
    && (TrimsSfx(v) ==> NoOverlap(tl.sfx))
  }

  /**
    b is a later state of the same run than a: segments and ranges were only
    appended to, effects were only appended, the one effect that was last in a is
    at most cut short (only when trimming), and the cursor never went back.
  */
  predicate Extends(v: Variant, a: State, b: State)
  {
    && a.segments <= b.segments
    && a.bgmRanges <= b.bgmRanges
    && a.currentTime <= b.currentTime
    && |a.sfx| <= |b.sfx|
    && (forall k :: 0 <= k < |a.sfx| - 1 ==> b.sfx[k] == a.sfx[k])
    && (a.sfx != [] ==> b.sfx[|a.sfx| - 1].time == a.sfx[|a.sfx| - 1].time)
    && (a.sfx != [] ==> b.sfx[|a.sfx| - 1].clip <= a.sfx[|a.sfx| - 1].clip)
    && (!TrimsSfx(v) ==> a.sfx <= b.sfx)
  }

  // ---------------------------------------------------------------------------
  // The line loop, as the renderer runs it
  // ---------------------------------------------------------------------------

  /** Once a prefix of the script fails, the whole script fails with the same error. */
  lemma {:induction false} RunAbortsAt(env: Env, v: Variant, ds: seq<Directive>, i: nat)
    requires i <= |ds| && Run(env, v, ds[..i]).Err?
    ensures Run(env, v, ds) == Run(env, v, ds[..i])
    decreases |ds| - i
  {
    if i == |ds| {
      assert ds[..i] == ds;
    } else {
      assert ds[..i + 1][..i] == ds[..i];
      RunAbortsAt(env, v, ds, i + 1);
    }
  }

  /** The parsing half of `process_vml_file`: every line is recognised, then run through the loop. */
  method CompileScript(env: Env, v: Variant, lines: seq<string>) returns (r: Result<Timeline, Error>)
    ensures r == Compile(env, v, lines)
  {
    r := BuildTimeline(env, v, Recognize(lines));
  }

  /** One more iteration of the loop applies the next line to the state reached so far. */
  lemma RunOneMore(env: Env, v: Variant, ds: seq<Directive>, i: nat, st: State)
    requires i < |ds| && Run(env, v, ds[..i]) == Ok(st)
    ensures Run(env, v, ds[..i + 1]) == Apply(env, v, st, ds[i])
  {
    assert ds[..i + 1][..i] == ds[..i];
  }

  /** The narration flush as the renderer writes it out before each pause, bgm and sfx line. */
  method FlushNarration(env: Env, v: Variant, st: State) returns (r: Result<State, Error>)
    ensures r == Flush(env, v, st)
  {
    r := Ok(st);
    if st.text != "" {
      var tts := Synthesize(env, v, st.text, st.settings);
      if tts.Err? {
        r := Err(tts.error);
        return;
      }
      r := Ok(st.(
        segments := st.segments + [Voice(tts.value)],
        currentTime := st.currentTime + |tts.value|,
        text := ""));
    }
  }

  /** A `[pause:s]` line: flush, then append the silence and advance the time cursor. */
  method PauseLine(env: Env, v: Variant, st: State, seconds: string) returns (r: Result<State, Error>)
    ensures r == DoPause(env, v, st, seconds)
  {
    r := FlushNarration(env, v, st);
    if r.Err? { return; }
    var pauseMs := env.pauseMillis(seconds);
    if pauseMs.None? {
      r := Err(BadNumber(seconds));
      return;
    }
    var f := r.value;
    r := Ok(f.(segments := f.segments + [Pause(pauseMs.value)], currentTime := f.currentTime + pauseMs.value));
  }

  /** A `[bgm:path]` line: flush, record the open range if any, open a new one here. */
  method BgmLine(env: Env, v: Variant, st: State, path: string) returns (r: Result<State, Error>)
    ensures r == DoBgm(env, v, st, path)
  {
    r := FlushNarration(env, v, st);
    if r.Err? { return; }
    var f := r.value;
    var bgmSegments := f.bgmRanges;
    if f.currentBgm != "" {
      bgmSegments := bgmSegments + [BgmRange(f.currentBgm, f.bgmStart, |f.segments|)];
    }
    r := Ok(f.(bgmRanges := bgmSegments, currentBgm := path, bgmStart := |f.segments|));
  }

  /**
    A `[sfx:path]` line: flush; a missing file places nothing. Otherwise the system-voice
    renderer first overwrites the last placement with its clip cut at the current time.
  */
  method SfxLine(env: Env, v: Variant, st: State, path: string) returns (r: Result<State, Error>)
    ensures r == DoSfx(env, v, st, path)
  {
    r := FlushNarration(env, v, st);
    if r.Err? { return; }
    var f := r.value;
    var loaded := env.load(path);
    if loaded.None? { return; }
    var sfx := env.gain(loaded.value, f.settings.sfxVolume);
    var sfxSegments := f.sfx;
    if TrimsSfx(v) && sfxSegments != [] {
      var prev := sfxSegments[|sfxSegments| - 1];
      var trimDuration := if f.currentTime - prev.time > 0 then f.currentTime - prev.time else 0;
      sfxSegments := sfxSegments[..|sfxSegments| - 1] + [SfxPlacement(Take(prev.clip, trimDuration), prev.time)];
    }
    sfxSegments := sfxSegments + [SfxPlacement(sfx, f.currentTime)];
    r := Ok(f.(sfx := sfxSegments));
  }

  /** One line of the loop, dispatched on what the line was recognised as. */
  method StepLine(env: Env, v: Variant, st: State, d: Directive) returns (next: Result<State, Error>)
    ensures next == Apply(env, v, st, d)
  {
    match d {
      case Blank =>
        next := Ok(st);
      case SetVoice(name) =>
        next := Ok(st.(settings := st.settings.(voice := name)));
      case SetRate(n) =>
        next := Ok(st.(settings := st.settings.(rate := n)));
      case SetVoiceVolume(s) =>
        var x := env.parseFloat(s);
        next := if x.None? then Err(BadNumber(s)) else Ok(st.(settings := st.settings.(voiceVolume := x.value)));
      case SetBgmVolume(s) =>
        var x := env.parseFloat(s);
        next := if x.None? then Err(BadNumber(s)) else Ok(st.(settings := st.settings.(bgmVolume := x.value)));
      case SetSfxVolume(s) =>
        var x := env.parseFloat(s);
        next := if x.None? then Err(BadNumber(s)) else Ok(st.(settings := st.settings.(sfxVolume := x.value)));
      case PauseFor(s) =>
        next := PauseLine(env, v, st, s);
      case PlayBgm(path) =>
        next := BgmLine(env, v, st, path);
      case PlaySfx(path) =>
        next := SfxLine(env, v, st, path);
      case Narration(t) =>
        next := Ok(st.(text := st.text + " " + t));
    }
  }

  /** After the last line: the final flush, then the open BGM range is closed at the final segment count. */
  method FinishTimeline(env: Env, v: Variant, st: State) returns (r: Result<Timeline, Error>)
    ensures r == Finish(env, v, st)
  {
    var flushed := FlushNarration(env, v, st);
    if flushed.Err? {
      r := Err(flushed.error);
      return;
    }
    var f := flushed.value;
    var ranges := f.bgmRanges;
    if f.currentBgm != "" {
      ranges := ranges + [BgmRange(f.currentBgm, f.bgmStart, |f.segments|)];
    }
    r := Ok(Timeline(f.segments, ranges, f.sfx, f.settings.bgmVolume));
  }

  /** The line loop of `process_vml_file` over recognised lines, then the final flush and BGM close. */
  method BuildTimeline(env: Env, v: Variant, script: seq<Directive>) returns (r: Result<Timeline, Error>)
    ensures r == Build(env, v, script)
  {
    var st := Initial(v);
    var i := 0;
    while i < |script|
      invariant i <= |script|
      invariant Run(env, v, script[..i]) == Ok(st)
    {
      RunOneMore(env, v, script, i, st);
      var next := StepLine(env, v, st, script[i]);
      if next.Err? {
        r := Err(next.error);
        RunAbortsAt(env, v, script, i + 1);
        return;
      }
      st := next.value;
      i := i + 1;
    }
    assert script[..i] == script;
    r := FinishTimeline(env, v, st);
  }
}
