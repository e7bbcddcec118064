/**
  A worked script followed through recognition and the line loop:

      [voice:Hero]
      Hello there.
      [pause:1.0]
      [bgm:theme.mp3]
      More text.
      [sfx:ding.wav]

  stated for any voice, narration, pause value, music file and effect file of the
  same shape.
*/
module Scenario {
  import opened Wrappers
  import opened Audio
  import opened Markup
  import opened Timeline

  /** A directive value that the lazy group captures whole and `strip()` leaves as it is. */
  predicate Bare(w: string)
  {
    && (forall j :: 0 <= j < |w| ==> w[j] != ']' && w[j] != '\n')
    && Strip(w) == w
  }

  /** A narration line: not blank, not starting with `[`, nothing for `strip()` to remove. */
  predicate Prose(t: string)
  {
    t != [] && t[0] != '[' && !IsSpace(t[0]) && !IsSpace(t[|t| - 1])
  }

  /** `[tag:w]` is left as it is by `strip()`. */
  lemma DirectiveLineIsStripped(tag: string, w: string)
    ensures Strip(Opening(tag) + w + "]") == Opening(tag) + w + "]"
  {
    StripKeepsClean(Opening(tag) + w + "]");
  }

  /** `[voice:w]` sets the voice to w. */
  lemma ReadsVoice(w: string)
    requires Bare(w)
    ensures Classify(Opening("voice") + w + "]") == SetVoice(w)
  {
    CaptureOf("voice", w, "");
    assert Opening("voice") + w + "]" + "" == Opening("voice") + w + "]";
  }

  /** `[pause:w]` is a pause of w seconds: the patterns tried before it do not match. */
  lemma ReadsPause(w: string)
    requires Bare(w)
    ensures Classify(Opening("pause") + w + "]") == PauseFor(w)
  {
    var line := Opening("pause") + w + "]";
    assert line[1] == 'p';
    Mismatch("voice", line, 1);
    Mismatch("rate", line, 1);
    Mismatch("voice_volume", line, 1);
    Mismatch("bgm_volume", line, 1);
    Mismatch("sfx_volume", line, 1);
    CaptureOf("pause", w, "");
    assert line + "" == line;
  }

  /** `[bgm:w]` starts the music file w: the `[bgm_volume:` pattern tried before it does not match. */
  lemma ReadsBgm(w: string)
    requires Bare(w)
    ensures Classify(Opening("bgm") + w + "]") == PlayBgm(w)
  {
    var line := Opening("bgm") + w + "]";
    assert line[1] == 'b' && line[4] == ':';
    Mismatch("voice", line, 1);
    Mismatch("rate", line, 1);
    Mismatch("voice_volume", line, 1);
    Mismatch("bgm_volume", line, 4);
    Mismatch("sfx_volume", line, 1);
    Mismatch("pause", line, 1);
    CaptureOf("bgm", w, "");
    assert line + "" == line;
  }

  /** `[sfx:w]` plays the effect file w: the `[sfx_volume:` pattern tried before it does not match. */
  lemma ReadsSfx(w: string)
    requires Bare(w)
    ensures Classify(Opening("sfx") + w + "]") == PlaySfx(w)
  {
    var line := Opening("sfx") + w + "]";
    assert line[1] == 's' && line[4] == ':';
    Mismatch("voice", line, 1);
    Mismatch("rate", line, 1);
    Mismatch("voice_volume", line, 1);
    Mismatch("bgm_volume", line, 1);
    Mismatch("sfx_volume", line, 4);
    Mismatch("pause", line, 1);
    Mismatch("bgm", line, 1);
    CaptureOf("sfx", w, "");
    assert line + "" == line;
  }

  /** The six script lines. */
  function Script(voice: string, first: string, pause: string, music: string, second: string, effect: string): seq<string>
  {
    [Opening("voice") + voice + "]", first, Opening("pause") + pause + "]",
     Opening("bgm") + music + "]", second, Opening("sfx") + effect + "]"]
  }

  /** Each directive line of the script, stripped and classified. */
  lemma ReadsDirectiveLines(voice: string, pause: string, music: string, effect: string)
    requires Bare(voice) && Bare(pause) && Bare(music) && Bare(effect)
    ensures Classify(Strip(Opening("voice") + voice + "]")) == SetVoice(voice)
    ensures Classify(Strip(Opening("pause") + pause + "]")) == PauseFor(pause)
    ensures Classify(Strip(Opening("bgm") + music + "]")) == PlayBgm(music)
    ensures Classify(Strip(Opening("sfx") + effect + "]")) == PlaySfx(effect)
  {
    DirectiveLineIsStripped("voice", voice);
    ReadsVoice(voice);
    DirectiveLineIsStripped("pause", pause);
    ReadsPause(pause);
    DirectiveLineIsStripped("bgm", music);
    ReadsBgm(music);
    DirectiveLineIsStripped("sfx", effect);
    ReadsSfx(effect);
  }

  /** The recognised script: the three lines up to the pause, then the three after it. */
  function Directives(voice: string, first: string, pause: string, music: string, second: string, effect: string): seq<Directive>
  {
    [SetVoice(voice), Narration(first), PauseFor(pause)] + [PlayBgm(music), Narration(second), PlaySfx(effect)]
  }

  /** Recognition reads each of six lines on its own. */
  lemma RecognizeSix(l0: string, l1: string, l2: string, l3: string, l4: string, l5: string)
    ensures Recognize([l0, l1, l2, l3, l4, l5]) ==
      [Classify(Strip(l0)), Classify(Strip(l1)), Classify(Strip(l2)),
       Classify(Strip(l3)), Classify(Strip(l4)), Classify(Strip(l5))]
  {
  }

  /** Six directives read one by one, regrouped as the two halves of the script. */
  lemma SixAsHalves(c0: Directive, c1: Directive, c2: Directive, c3: Directive, c4: Directive, c5: Directive,
                    d0: Directive, d1: Directive, d2: Directive, d3: Directive, d4: Directive, d5: Directive)
    requires c0 == d0 && c1 == d1 && c2 == d2 && c3 == d3 && c4 == d4 && c5 == d5
    ensures [c0, c1, c2, c3, c4, c5] == [d0, d1, d2] + [d3, d4, d5]
  {
  }

  /** A narration line is recognised as itself. */
  lemma ReadsProse(t: string)
    requires Prose(t)
    ensures Classify(Strip(t)) == Narration(t)
  {
    StripKeepsClean(t);
    UnbracketedIsNarration(t);
  }

  /** Each line of the script is recognised as the directive or narration it reads as. */
  lemma ScriptRecognized(voice: string, first: string, pause: string, music: string, second: string, effect: string)
    requires Bare(voice) && Bare(pause) && Bare(music) && Bare(effect) && Prose(first) && Prose(second)
    ensures Recognize(Script(voice, first, pause, music, second, effect)) ==
      Directives(voice, first, pause, music, second, effect)
  {
    ReadsDirectiveLines(voice, pause, music, effect);
    ReadsProse(first);
    ReadsProse(second);
    var l0, l2, l3, l5 := Opening("voice") + voice + "]", Opening("pause") + pause + "]",
      Opening("bgm") + music + "]", Opening("sfx") + effect + "]";
    RecognizeSix(l0, first, l2, l3, second, l5);
    SixAsHalves(Classify(Strip(l0)), Classify(Strip(first)), Classify(Strip(l2)),
                Classify(Strip(l3)), Classify(Strip(second)), Classify(Strip(l5)),
                SetVoice(voice), Narration(first), PauseFor(pause), PlayBgm(music), Narration(second), PlaySfx(effect));
  }

  /** A flush of pending text that the backend synthesizes appends one voice segment. */
  lemma FlushSynthesized(env: Env, v: Variant, st: State, raw: Clip)
    requires st.text != "" && (v == Piper ==> HasPiperModel(st.settings.voice))
    requires env.synthesize(st.text, st.settings.voice, st.settings.rate) == Some(raw)
    ensures Flush(env, v, st) == Ok(st.(
      segments := st.segments + [Voice(env.gain(raw, st.settings.voiceVolume))],
      currentTime := st.currentTime + |env.gain(raw, st.settings.voiceVolume)|,
      text := ""))
  {
  }

  /** The first effect of a run is placed at the cursor with the effect gain, whichever renderer. */
  lemma FirstEffectPlaced(env: Env, v: Variant, f: State, path: string, raw: Clip)
    requires f.text == "" && f.sfx == [] && env.load(path) == Some(raw)
    ensures DoSfx(env, v, f, path) == Ok(f.(sfx := [SfxPlacement(env.gain(raw, f.settings.sfxVolume), f.currentTime)]))
  {
    assert f.sfx + [SfxPlacement(env.gain(raw, f.settings.sfxVolume), f.currentTime)]
      == [SfxPlacement(env.gain(raw, f.settings.sfxVolume), f.currentTime)];
  }

  /** The settings after `[voice:name]` at the top of a script. */
  function VoiceSettings(voice: string): Settings
  {
    Settings(voice, 180, 1.0, 0.4, 1.0)
  }

  /** The pause line of the script flushes the first narration, then appends the silence. */
  lemma PauseAfterFirst(env: Env, v: Variant, voice: string, first: string, pause: string, a: Clip, ms: nat)
    requires v == Piper ==> HasPiperModel(voice)
    requires env.synthesize(" " + first, voice, 180) == Some(a)
    requires env.pauseMillis(pause) == Some(ms)
    ensures Apply(env, v, State(VoiceSettings(voice), " " + first, [], [], [], "", 0, 0), PauseFor(pause)) ==
      Ok(State(VoiceSettings(voice), "", [Voice(env.gain(a, 1.0)), Pause(ms)], [], [], "", 0, |env.gain(a, 1.0)| + ms))
  {
    var A := env.gain(a, 1.0);
    FlushSynthesized(env, v, State(VoiceSettings(voice), " " + first, [], [], [], "", 0, 0), a);
    assert [] + [Voice(A)] + [Pause(ms)] == [Voice(A), Pause(ms)];
  }

  /** The effect line of the script flushes the second narration, then places the effect after it. */
  lemma EffectAfterSecond(env: Env, v: Variant, voice: string, second: string, effect: string, music: string,
                          before: seq<Segment>, t: nat, b: Clip, fx: Clip)
    requires v == Piper ==> HasPiperModel(voice)
    requires env.synthesize(" " + second, voice, 180) == Some(b)
    requires env.load(effect) == Some(fx)
    ensures Apply(env, v, State(VoiceSettings(voice), " " + second, before, [], [], music, 2, t), PlaySfx(effect)) ==
      Ok(State(VoiceSettings(voice), "", before + [Voice(env.gain(b, 1.0))], [],
        [SfxPlacement(env.gain(fx, 1.0), t + |env.gain(b, 1.0)|)], music, 2, t + |env.gain(b, 1.0)|))
  {
    var s5 := State(VoiceSettings(voice), " " + second, before, [], [], music, 2, t);
    var B := env.gain(b, 1.0);
    var f := State(VoiceSettings(voice), "", before + [Voice(B)], [], [], music, 2, t + |B|);
    FlushSynthesized(env, v, s5, b);
    assert Flush(env, v, s5) == Ok(f);
    FirstEffectPlaced(env, v, f, effect, fx);
  }

  /** One more line after a prefix that ran: the loop's variables take one more step. */
  lemma RunSnoc(env: Env, v: Variant, ds: seq<Directive>, d: Directive, st: State, st': State)
    requires Run(env, v, ds) == Ok(st) && Apply(env, v, st, d) == Ok(st')
    ensures Run(env, v, ds + [d]) == Ok(st')
  {
    assert (ds + [d])[..|ds|] == ds;
  }

  /** The voice line and the first narration line only set the voice and buffer the text. */
  lemma OpeningLines(env: Env, v: Variant, voice: string, first: string)
    ensures Apply(env, v, Initial(v), SetVoice(voice)) == Ok(State(VoiceSettings(voice), "", [], [], [], "", 0, 0))
    ensures Apply(env, v, State(VoiceSettings(voice), "", [], [], [], "", 0, 0), Narration(first)) ==
      Ok(State(VoiceSettings(voice), " " + first, [], [], [], "", 0, 0))
  {
    assert "" + " " + first == " " + first;
  }

  /** The music line opens a range at segment 2; the second narration line is buffered. */
  lemma MiddleLines(env: Env, v: Variant, voice: string, music: string, second: string, before: seq<Segment>, t: nat)
    requires |before| == 2
    ensures Apply(env, v, State(VoiceSettings(voice), "", before, [], [], "", 0, t), PlayBgm(music)) ==
      Ok(State(VoiceSettings(voice), "", before, [], [], music, 2, t))
    ensures Apply(env, v, State(VoiceSettings(voice), "", before, [], [], music, 2, t), Narration(second)) ==
      Ok(State(VoiceSettings(voice), " " + second, before, [], [], music, 2, t))
  {
    assert "" + " " + second == " " + second;
  }

  /**
    The first three lines: the narration is flushed by the pause, which follows it.
    This is the state at the pause that ScriptRuns, ScriptBuilds and ScriptCompiles
    start from.
  */
  lemma RunToPause(env: Env, v: Variant, voice: string, first: string, pause: string, a: Clip, ms: nat)
    requires v == Piper ==> HasPiperModel(voice)
    requires env.synthesize(" " + first, voice, 180) == Some(a)
    requires env.pauseMillis(pause) == Some(ms)
    ensures Run(env, v, [SetVoice(voice), Narration(first), PauseFor(pause)]) ==
      Ok(State(VoiceSettings(voice), "", [Voice(env.gain(a, 1.0)), Pause(ms)], [], [], "", 0, |env.gain(a, 1.0)| + ms))
  {
    var s1 := State(VoiceSettings(voice), "", [], [], [], "", 0, 0);
    var s2 := State(VoiceSettings(voice), " " + first, [], [], [], "", 0, 0);
    OpeningLines(env, v, voice, first);
    assert Run(env, v, []) == Ok(Initial(v));
    RunSnoc(env, v, [], SetVoice(voice), Initial(v), s1);
    assert [] + [SetVoice(voice)] == [SetVoice(voice)];
    RunSnoc(env, v, [SetVoice(voice)], Narration(first), s1, s2);
    assert [SetVoice(voice)] + [Narration(first)] == [SetVoice(voice), Narration(first)];
    PauseAfterFirst(env, v, voice, first, pause, a, ms);
    RunSnoc(env, v, [SetVoice(voice), Narration(first)], PauseFor(pause), s2,
            State(VoiceSettings(voice), "", [Voice(env.gain(a, 1.0)), Pause(ms)], [], [], "", 0, |env.gain(a, 1.0)| + ms));
    assert [SetVoice(voice), Narration(first)] + [PauseFor(pause)] == [SetVoice(voice), Narration(first), PauseFor(pause)];
  }

  /** The music line and the second narration line after a run that reached the pause. */
  lemma RunToSecond(env: Env, v: Variant, ds: seq<Directive>, voice: string, music: string, second: string,
                    before: seq<Segment>, t: nat)
    requires |before| == 2
    requires Run(env, v, ds) == Ok(State(VoiceSettings(voice), "", before, [], [], "", 0, t))
    ensures Run(env, v, ds + [PlayBgm(music), Narration(second)]) ==
      Ok(State(VoiceSettings(voice), " " + second, before, [], [], music, 2, t))
  {
    var s4 := State(VoiceSettings(voice), "", before, [], [], music, 2, t);
    MiddleLines(env, v, voice, music, second, before, t);
    RunSnoc(env, v, ds, PlayBgm(music), State(VoiceSettings(voice), "", before, [], [], "", 0, t), s4);
    RunSnoc(env, v, ds + [PlayBgm(music)], Narration(second), s4,
            State(VoiceSettings(voice), " " + second, before, [], [], music, 2, t));
    assert ds + [PlayBgm(music)] + [Narration(second)] == ds + [PlayBgm(music), Narration(second)];
  }

  /**
    The last three lines after a run that reached the pause: the music range opens at
    segment 2, and the effect line flushes the second narration and places the effect
    where it ends.
  */
  lemma RunFromPause(env: Env, v: Variant, ds: seq<Directive>, voice: string, music: string, second: string,
                     effect: string, before: seq<Segment>, t: nat, b: Clip, fx: Clip)
    requires v == Piper ==> HasPiperModel(voice)
    requires |before| == 2
    requires Run(env, v, ds) == Ok(State(VoiceSettings(voice), "", before, [], [], "", 0, t))
    requires env.synthesize(" " + second, voice, 180) == Some(b)
    requires env.load(effect) == Some(fx)
    ensures Run(env, v, ds + [PlayBgm(music), Narration(second), PlaySfx(effect)]) ==
      Ok(State(VoiceSettings(voice), "", before + [Voice(env.gain(b, 1.0))], [],
        [SfxPlacement(env.gain(fx, 1.0), t + |env.gain(b, 1.0)|)], music, 2, t + |env.gain(b, 1.0)|))
  {
    var five := ds + [PlayBgm(music), Narration(second)];
    RunToSecond(env, v, ds, voice, music, second, before, t);
    EffectAfterSecond(env, v, voice, second, effect, music, before, t, b, fx);
    RunSnoc(env, v, five, PlaySfx(effect),
            State(VoiceSettings(voice), " " + second, before, [], [], music, 2, t),
            State(VoiceSettings(voice), "", before + [Voice(env.gain(b, 1.0))], [],
                  [SfxPlacement(env.gain(fx, 1.0), t + |env.gain(b, 1.0)|)], music, 2, t + |env.gain(b, 1.0)|));
    assert five + [PlaySfx(effect)] == ds + [PlayBgm(music), Narration(second), PlaySfx(effect)];
  }

  /**
    The whole loop, from the state the first three lines reach (RunToPause gives it:
    the first narration's voice segment and the pause): the music range opens at
    segment 2, and the second narration is flushed by the effect line, which places
    the effect where that narration ends; the music range is still open.
  */
  lemma ScriptRuns(env: Env, v: Variant, voice: string, first: string, pause: string, music: string,
                   second: string, effect: string, before: seq<Segment>, t: nat, b: Clip, fx: Clip)
    requires v == Piper ==> HasPiperModel(voice)
    requires |before| == 2
    requires Run(env, v, [SetVoice(voice), Narration(first), PauseFor(pause)]) ==
      Ok(State(VoiceSettings(voice), "", before, [], [], "", 0, t))
    requires env.synthesize(" " + second, voice, 180) == Some(b)
    requires env.load(effect) == Some(fx)
    ensures Run(env, v, Directives(voice, first, pause, music, second, effect)) ==
      Ok(State(VoiceSettings(voice), "", before + [Voice(env.gain(b, 1.0))], [],
        [SfxPlacement(env.gain(fx, 1.0), t + |env.gain(b, 1.0)|)], music, 2, t + |env.gain(b, 1.0)|))
  {
    RunFromPause(env, v, [SetVoice(voice), Narration(first), PauseFor(pause)], voice, music, second, effect,
                 before, t, b, fx);
  }

  /** Once the loop has run, the timeline is what the final flush and BGM close make of its state. */
  lemma BuildAfterRun(env: Env, v: Variant, ds: seq<Directive>, st: State)
    requires Run(env, v, ds) == Ok(st)
    ensures Build(env, v, ds) == Finish(env, v, st)
  {
  }

  /**
    After the loop, the final flush has nothing left to synthesize and the open music
    range is closed at the final segment count, 3.
  */
  lemma ScriptBuilds(env: Env, v: Variant, voice: string, first: string, pause: string, music: string,
                     second: string, effect: string, before: seq<Segment>, t: nat, b: Clip, fx: Clip)
    requires v == Piper ==> HasPiperModel(voice)
    requires |before| == 2
    requires Run(env, v, [SetVoice(voice), Narration(first), PauseFor(pause)]) ==
      Ok(State(VoiceSettings(voice), "", before, [], [], "", 0, t))
    requires env.synthesize(" " + second, voice, 180) == Some(b)
    requires env.load(effect) == Some(fx)
    requires music != ""
    ensures Build(env, v, Directives(voice, first, pause, music, second, effect)) == Ok(Timeline(
      before + [Voice(env.gain(b, 1.0))],
      [BgmRange(music, 2, 3)],
      [SfxPlacement(env.gain(fx, 1.0), t + |env.gain(b, 1.0)|)],
      0.4))
  {
    ScriptRuns(env, v, voice, first, pause, music, second, effect, before, t, b, fx);
    var ds := Directives(voice, first, pause, music, second, effect);
    var st := Run(env, v, ds).value;
    BuildAfterRun(env, v, ds, st);
    assert Flush(env, v, st) == Ok(st);
    assert CloseBgm(st) == [BgmRange(music, 2, 3)];
  }

  /** A script is compiled by building the timeline of what its lines are recognised as. */
  lemma CompileRecognized(env: Env, v: Variant, lines: seq<string>, ds: seq<Directive>)
    requires Recognize(lines) == ds
    ensures Compile(env, v, lines) == Build(env, v, ds)
  {
  }

  /**
    The whole script, from the state its first three lines reach: three segments, one
    music range over the second voice segment (segments 2 to 3, closed at the end of
    input), one effect at the end of the track.
  */
  lemma ScriptCompiles(env: Env, v: Variant, voice: string, first: string, pause: string, music: string,
                       second: string, effect: string, before: seq<Segment>, t: nat, b: Clip, fx: Clip)
    requires Bare(voice) && Bare(pause) && Bare(music) && Bare(effect) && Prose(first) && Prose(second)
    requires v == Piper ==> HasPiperModel(voice)
    requires |before| == 2
    requires Run(env, v, [SetVoice(voice), Narration(first), PauseFor(pause)]) ==
      Ok(State(VoiceSettings(voice), "", before, [], [], "", 0, t))
    requires env.synthesize(" " + second, voice, 180) == Some(b)
    requires env.load(effect) == Some(fx)
    requires music != ""
    ensures Compile(env, v, Script(voice, first, pause, music, second, effect)) == Ok(Timeline(
      before + [Voice(env.gain(b, 1.0))],
      [BgmRange(music, 2, 3)],
      [SfxPlacement(env.gain(fx, 1.0), t + |env.gain(b, 1.0)|)],
      0.4))
  {
    ScriptRecognized(voice, first, pause, music, second, effect);
    CompileRecognized(env, v, Script(voice, first, pause, music, second, effect),
                      Directives(voice, first, pause, music, second, effect));
    ScriptBuilds(env, v, voice, first, pause, music, second, effect, before, t, b, fx);
  }
}
