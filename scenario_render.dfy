/** What the worked script of the Scenario module sounds like once it is composed. */
module ScenarioRender {
  import opened Audio
  import opened Timeline
  import opened Compositor

  /**
    The timeline the script compiles to (Scenario.ScriptCompiles) places its effect at
    the end of the second narration, which is the last cue point: the end of the track.
    So none of the effect is heard, and the render (Compositor.RenderCompiled) is the
    narration with the music alone. The cursor t at the pause is the length of the
    first two segments, as TimelineLemmas.RunConsistent shows for every run.
  */
  lemma ScriptEffectUnheard(env: Env, before: seq<Segment>, t: nat, b: Clip, fx: Clip, music: string, fade: nat)
    requires |before| == 2 && t == Duration(before)
    ensures InTrack([BgmRange(music, 2, 3)], 3)
    ensures
      var segs := before + [Voice(env.gain(b, 1.0))];
      Mix(env, Timeline(segs, [BgmRange(music, 2, 3)], [SfxPlacement(env.gain(fx, 1.0), t + |env.gain(b, 1.0)|)], 0.4), fade)
      == MixBgm(env, Track(segs), segs, [BgmRange(music, 2, 3)], 0.4, fade)
  {
    var segs := before + [Voice(env.gain(b, 1.0))];
    var tl := Timeline(segs, [BgmRange(music, 2, 3)], [SfxPlacement(env.gain(fx, 1.0), t + |env.gain(b, 1.0)|)], 0.4);
    TimelineLemmas.DurationAppend(before, Voice(env.gain(b, 1.0)));
    EffectsAtEndUnheard(env, tl, fade);
  }
}
