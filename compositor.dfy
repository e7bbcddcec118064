/**
  The audio-composition half of `process_vml_file`: the segments are joined into the
  voice track, whose running lengths are the cue points; each recorded BGM range is
  looped to the exact span between its two cue points and laid over the track; then
  each sound effect is laid over the result at its time. Both renderers compose the
  same way.
*/
module Compositor {
  import opened Wrappers
  import opened Audio
  import opened Markup
  import opened Timeline
  import TimelineLemmas

  // ---------------------------------------------------------------------------
  // The voice track and its cue points
  // ---------------------------------------------------------------------------

  /** The fade-in and fade-out length of every music range unless the caller gives one. */
  const DefaultFadeMs: nat := 2000

  /** `voice_track`: the audio of every segment, back to back. */
  function Track(segs: seq<Segment>): (r: Clip)
    ensures |r| == Duration(segs)
  {
    if segs == [] then [] else Track(segs[..|segs| - 1]) + AudioOf(segs[|segs| - 1])
  }

  /** `cue_points`: 0, then the length of the track after each segment is appended. */
  function CuePoints(segs: seq<Segment>): (r: seq<nat>)
    ensures |r| == |segs| + 1
  {
    if segs == [] then [0] else CuePoints(segs[..|segs| - 1]) + [|Track(segs)|]
  }

  /** Cue point j is where segment j starts: the length of the segments before it. */
  lemma {:induction false} CuePointsAreBoundaries(segs: seq<Segment>)
    ensures forall j :: 0 <= j <= |segs| ==> CuePoints(segs)[j] == Duration(segs[..j])
  {
    if segs != [] {
      var init := segs[..|segs| - 1];
      CuePointsAreBoundaries(init);
      forall j | 0 <= j <= |segs|
        ensures CuePoints(segs)[j] == Duration(segs[..j])
      {
        if j < |segs| {
          assert init[..j] == segs[..j];
        } else {
          assert segs[..j] == segs;
        }
      }
    }
  }

  /** The segments before index i never last longer than those before a later index j. */
  lemma {:induction false} DurationMonotone(segs: seq<Segment>, i: nat, j: nat)
    requires i <= j <= |segs|
    ensures Duration(segs[..i]) <= Duration(segs[..j])
    decreases j - i
  {
    if i < j {
      DurationMonotone(segs, i, j - 1);
      assert segs[..j][..j - 1] == segs[..j - 1];
    }
  }

  /** The track of the first k segments is the start of the whole track. */
  lemma {:induction false} TrackPrefix(segs: seq<Segment>, k: nat)
    requires k <= |segs|
    ensures Duration(segs[..k]) <= Duration(segs)
    ensures Track(segs[..k]) == Track(segs)[..Duration(segs[..k])]
  {
    if k == |segs| {
      assert segs[..k] == segs;
    } else {
      var init := segs[..|segs| - 1];
      TrackPrefix(init, k);
      assert init[..k] == segs[..k];
      assert Track(segs) == Track(init) + AudioOf(segs[|segs| - 1]);
    }
  }

  /** Segment j's audio sits in the track exactly between cue points j and j + 1. */
  lemma TrackAt(segs: seq<Segment>, j: nat)
    requires j < |segs|
    ensures CuePoints(segs)[j] + Length(segs[j]) == CuePoints(segs)[j + 1] <= Duration(segs)
    ensures Track(segs)[CuePoints(segs)[j]..CuePoints(segs)[j + 1]] == AudioOf(segs[j])
  {
    CuePointsAreBoundaries(segs);
    TrackPrefix(segs, j + 1);
    assert segs[..j + 1][..j] == segs[..j];
    var before, upTo := Track(segs[..j]), Track(segs[..j + 1]);
    assert upTo == before + AudioOf(segs[j]);
    assert upTo[|before|..] == AudioOf(segs[j]);
  }

  // ---------------------------------------------------------------------------
  // Background music
  // ---------------------------------------------------------------------------

  /** Each range starts no later than it ends and ends within n segments. */
  predicate InTrack(rs: seq<BgmRange>, n: nat)
  {
    forall k :: 0 <= k < |rs| ==> rs[k].start <= rs[k].end <= n
  }

  /**
    The music clip for a span: the low-passed source looped and cut to the span's
    duration, faded in and out, with the BGM gain added.
  */
  function BgmClip(env: Env, source: Clip, duration: nat, vol: real, fade: nat): (r: Clip)
    requires |source| > 0
    ensures |r| == duration
  {
    LoopIsExact(env.lowPass(source), duration);
    env.gain(env.fadeOut(env.fadeIn(Loop(env.lowPass(source), duration), fade), fade), vol)
  }

  /** Where range r's music starts, and how long it plays: the cue points of its two segment indices. */
  function Span(segs: seq<Segment>, r: BgmRange): (span: (nat, nat))
    requires r.start <= r.end <= |segs|
    ensures span.0 == Duration(segs[..r.start])
    ensures span.0 + span.1 == Duration(segs[..r.end])
  {
    CuePointsAreBoundaries(segs);
    DurationMonotone(segs, r.start, r.end);
    var cues := CuePoints(segs);
    (cues[r.start], cues[r.end] - cues[r.start])
  }

  /**
    One range laid over the mix: a missing file is skipped, an empty one aborts the
    render (`duration // len(bgm)` divides by zero).
  */
  function AddBgm(env: Env, mix: Clip, segs: seq<Segment>, r: BgmRange, vol: real, fade: nat): (res: Result<Clip, Error>)
    requires r.start <= r.end <= |segs|
    ensures res.Err? <==> env.load(r.file) == Some([])
    ensures res.Err? ==> res.error == EmptyBgmSource(r.file)
    ensures res.Ok? ==> |res.value| == |mix|
  {
    match env.load(r.file)
    case None => Ok(mix)
    case Some(source) =>
      if |source| == 0 then Err(EmptyBgmSource(r.file))
      else
        var span := Span(segs, r);
        Ok(Overlay(mix, BgmClip(env, source, span.1, vol, fade), span.0))
  }

  /** The ranges laid over the track in order; the first empty music file aborts. */
  function MixBgm(env: Env, base: Clip, segs: seq<Segment>, rs: seq<BgmRange>, vol: real, fade: nat): (r: Result<Clip, Error>)
    requires InTrack(rs, |segs|)
    ensures r.Ok? ==> |r.value| == |base|
  {
    if rs == [] then Ok(base)
    else
      match MixBgm(env, base, segs, rs[..|rs| - 1], vol, fade)
      case Err(e) => Err(e)
      case Ok(m) => AddBgm(env, m, segs, rs[|rs| - 1], vol, fade)
  }

  /** The effects laid over the mix in order, each at its (whole-millisecond) time. */
  function MixSfx(base: Clip, ps: seq<SfxPlacement>): (r: Clip)
    ensures |r| == |base|
  {
    if ps == [] then base
    else Overlay(MixSfx(base, ps[..|ps| - 1]), ps[|ps| - 1].clip, ps[|ps| - 1].time)
  }

  /** `final_mix`: the track, then the music, then the effects. */
  function Mix(env: Env, tl: Timeline, fade: nat): (r: Result<Clip, Error>)
    requires InTrack(tl.bgmRanges, |tl.segments|)
    ensures r.Ok? ==> |r.value| == Duration(tl.segments)
  {
    match MixBgm(env, Track(tl.segments), tl.segments, tl.bgmRanges, tl.bgmVolume, fade)
    case Err(e) => Err(e)
    case Ok(m) => Ok(MixSfx(m, tl.sfx))
  }

  /** The ranges the line loop records always lie within the segments. */
  lemma WithinIsInTrack(rs: seq<BgmRange>, n: nat)
    requires RangesWithin(rs, n)
    ensures InTrack(rs, n)
  {
  }

  /** The whole renderer: the script compiled to a timeline, and the timeline composed. */
  function Render(env: Env, v: Variant, lines: seq<string>, fade: nat): Result<Clip, Error>
  {
    match Compile(env, v, lines)
    case Err(e) => Err(e)
    case Ok(tl) =>
      TimelineLemmas.BuildWellFormed(env, v, Recognize(lines));
      Mix(env, tl, fade)
  }

  // ---------------------------------------------------------------------------
  // What composition promises
  // ---------------------------------------------------------------------------

  /** The music file of a range loads but holds no audio. */
  predicate EmptySource(env: Env, file: string)
  {
    env.load(file) == Some([])
  }

  /** The prefix of a list of in-track ranges is in the track. */
  lemma InTrackPrefix(rs: seq<BgmRange>, n: nat, k: nat)
    requires InTrack(rs, n) && k <= |rs|
    ensures InTrack(rs[..k], n)
  {
    assert forall j :: 0 <= j < k ==> rs[..k][j] == rs[j];
  }

  /**
    Laying the music fails exactly when some range's file is empty, and then with the
    error of the first such range: every range before it was laid.
  */
  lemma {:induction false} MixBgmFails(env: Env, base: Clip, segs: seq<Segment>, rs: seq<BgmRange>, vol: real, fade: nat)
    requires InTrack(rs, |segs|)
    ensures MixBgm(env, base, segs, rs, vol, fade).Err? <==> exists k :: 0 <= k < |rs| && EmptySource(env, rs[k].file)
    ensures MixBgm(env, base, segs, rs, vol, fade).Err? ==>
      exists k :: 0 <= k < |rs| && EmptySource(env, rs[k].file)
        && MixBgm(env, base, segs, rs, vol, fade).error == EmptyBgmSource(rs[k].file)
        && forall j :: 0 <= j < k ==> !EmptySource(env, rs[j].file)
  {
    if rs != [] {
      var n := |rs| - 1;
      var init := rs[..n];
      InTrackPrefix(rs, |segs|, n);
      MixBgmFails(env, base, segs, init, vol, fade);
      assert forall j :: 0 <= j < n ==> init[j] == rs[j];
      var m := MixBgm(env, base, segs, init, vol, fade);
      if m.Ok? {
        var a := AddBgm(env, m.value, segs, rs[n], vol, fade);
        assert MixBgm(env, base, segs, rs, vol, fade) == a;
        assert forall j :: 0 <= j < n ==> !EmptySource(env, rs[j].file);
        assert a.Err? <==> EmptySource(env, rs[n].file);
      } else {
        assert MixBgm(env, base, segs, rs, vol, fade) == m;
      }
    }
  }

  /** The ranges whose music file is found, in order. */
  function Found(env: Env, rs: seq<BgmRange>): (r: seq<BgmRange>)
    ensures |r| <= |rs|
    ensures forall k :: 0 <= k < |r| ==> r[k] in rs && env.load(r[k].file).Some?
  {
    if rs == [] then []
    else if env.load(rs[|rs| - 1].file).None? then Found(env, rs[..|rs| - 1])
    else Found(env, rs[..|rs| - 1]) + [rs[|rs| - 1]]
  }

  /** Found ranges of in-track ranges are in the track. */
  lemma FoundInTrack(env: Env, rs: seq<BgmRange>, n: nat)
    requires InTrack(rs, n)
    ensures InTrack(Found(env, rs), n)
  {
  }

  /** A range whose music file is missing is skipped: the mix is that of the found ranges alone. */
  lemma {:induction false} MissingBgmSkipped(env: Env, base: Clip, segs: seq<Segment>, rs: seq<BgmRange>, vol: real, fade: nat)
    requires InTrack(rs, |segs|)
    ensures InTrack(Found(env, rs), |segs|)
    ensures MixBgm(env, base, segs, rs, vol, fade) == MixBgm(env, base, segs, Found(env, rs), vol, fade)
  {
    FoundInTrack(env, rs, |segs|);
    if rs != [] {
      var init := rs[..|rs| - 1];
      var last := rs[|rs| - 1];
      InTrackPrefix(rs, |segs|, |rs| - 1);
      MissingBgmSkipped(env, base, segs, init, vol, fade);
      if env.load(last.file).Some? {
        var f := Found(env, init) + [last];
        assert f[..|f| - 1] == Found(env, init);
      }
    }
  }

  /**
    The whole render fails exactly when compiling the script fails, or when some
    recorded range's music file is empty; otherwise it lasts as long as the narration
    track.
  */
  lemma RenderOutcome(env: Env, v: Variant, lines: seq<string>, fade: nat)
    ensures Compile(env, v, lines).Err? ==> Render(env, v, lines, fade) == Err(Compile(env, v, lines).error)
    ensures Compile(env, v, lines).Ok? ==>
      var tl := Compile(env, v, lines).value;
      && (Render(env, v, lines, fade).Err? <==>
            exists k :: 0 <= k < |tl.bgmRanges| && EmptySource(env, tl.bgmRanges[k].file))
      && (Render(env, v, lines, fade).Ok? ==> |Render(env, v, lines, fade).value| == Duration(tl.segments))
  {
    if Compile(env, v, lines).Ok? {
      var tl := Compile(env, v, lines).value;
      TimelineLemmas.BuildWellFormed(env, v, Recognize(lines));
      MixBgmFails(env, Track(tl.segments), tl.segments, tl.bgmRanges, tl.bgmVolume, fade);
    }
  }

  /** Sample i is within the span of some range's music. */
  predicate UnderBgm(i: nat, segs: seq<Segment>, rs: seq<BgmRange>)
  {
    exists k :: 0 <= k < |rs| && rs[k].start <= rs[k].end <= |segs|
      && Duration(segs[..rs[k].start]) <= i < Duration(segs[..rs[k].end])
  }

  /** Sample i is within some effect. */
  predicate UnderSfx(i: nat, ps: seq<SfxPlacement>)
  {
    exists k :: 0 <= k < |ps| && ps[k].time <= i < ps[k].time + |ps[k].clip|
  }

  /** Music changes no sample outside the spans of the ranges. */
  lemma {:induction false} MixBgmKeepsRest(env: Env, base: Clip, segs: seq<Segment>, rs: seq<BgmRange>, vol: real, fade: nat, i: nat)
    requires InTrack(rs, |segs|) && MixBgm(env, base, segs, rs, vol, fade).Ok?
    requires i < |base| && !UnderBgm(i, segs, rs)
    ensures MixBgm(env, base, segs, rs, vol, fade).value[i] == base[i]
  {
    if rs != [] {
      var n := |rs| - 1;
      var init := rs[..n];
      InTrackPrefix(rs, |segs|, n);
      assert forall j :: 0 <= j < n ==> init[j] == rs[j];
      var m := MixBgm(env, base, segs, init, vol, fade);
      assert m.Ok?;
      MixBgmKeepsRest(env, base, segs, init, vol, fade, i);
      assert !(Duration(segs[..rs[n].start]) <= i < Duration(segs[..rs[n].end]));
      var a := AddBgm(env, m.value, segs, rs[n], vol, fade);
      assert MixBgm(env, base, segs, rs, vol, fade) == a;
      assert a.value[i] == m.value[i];
    }
  }

  /** Effects change no sample outside themselves. */
  lemma {:induction false} MixSfxKeepsRest(base: Clip, ps: seq<SfxPlacement>, i: nat)
    requires i < |base| && !UnderSfx(i, ps)
    ensures MixSfx(base, ps)[i] == base[i]
  {
    if ps != [] {
      var n := |ps| - 1;
      var init := ps[..n];
      assert forall j :: 0 <= j < n ==> init[j] == ps[j];
      MixSfxKeepsRest(base, init, i);
      assert !(ps[n].time <= i < ps[n].time + |ps[n].clip|);
    }
  }

  /** A script that compiles renders as the composition of its timeline. */
  lemma RenderCompiled(env: Env, v: Variant, lines: seq<string>, tl: Timeline, fade: nat)
    requires Compile(env, v, lines) == Ok(tl)
    ensures InTrack(tl.bgmRanges, |tl.segments|)
    ensures Render(env, v, lines, fade) == Mix(env, tl, fade)
  {
    TimelineLemmas.BuildWellFormed(env, v, Recognize(lines));
  }

  /**
    An effect that starts at or after the end of the mix is not heard: overlaying keeps
    the mix's length, so nothing of it is laid down.
  */
  lemma {:induction false} LateEffectsUnheard(base: Clip, ps: seq<SfxPlacement>)
    requires forall k :: 0 <= k < |ps| ==> ps[k].time >= |base|
    ensures MixSfx(base, ps) == base
  {
    if ps != [] {
      var n := |ps| - 1;
      assert forall j :: 0 <= j < n ==> ps[..n][j] == ps[j];
      LateEffectsUnheard(base, ps[..n]);
      var r := MixSfx(base, ps);
      assert forall i :: 0 <= i < |r| ==> r[i] == base[i];
    }
  }

  /** When every effect starts at the end of the track, the render is the music mix alone. */
  lemma EffectsAtEndUnheard(env: Env, tl: Timeline, fade: nat)
    requires InTrack(tl.bgmRanges, |tl.segments|)
    requires forall k :: 0 <= k < |tl.sfx| ==> tl.sfx[k].time >= Duration(tl.segments)
    ensures Mix(env, tl, fade) == MixBgm(env, Track(tl.segments), tl.segments, tl.bgmRanges, tl.bgmVolume, fade)
  {
    var m := MixBgm(env, Track(tl.segments), tl.segments, tl.bgmRanges, tl.bgmVolume, fade);
    if m.Ok? {
      LateEffectsUnheard(m.value, tl.sfx);
    }
  }

  /** Where no music and no effect plays, the render is the narration track itself. */
  lemma NarrationUntouched(env: Env, tl: Timeline, fade: nat, i: nat)
    requires InTrack(tl.bgmRanges, |tl.segments|) && Mix(env, tl, fade).Ok?
    requires i < Duration(tl.segments) && !UnderBgm(i, tl.segments, tl.bgmRanges) && !UnderSfx(i, tl.sfx)
    ensures Mix(env, tl, fade).value[i] == Track(tl.segments)[i]
  {
    var m := MixBgm(env, Track(tl.segments), tl.segments, tl.bgmRanges, tl.bgmVolume, fade).value;
    MixBgmKeepsRest(env, Track(tl.segments), tl.segments, tl.bgmRanges, tl.bgmVolume, fade, i);
    MixSfxKeepsRest(m, tl.sfx, i);
  }

  /**
    A range whose file holds music plays it over exactly its segments: from the cue
    point of its first segment to that of its end index, sample by sample.
  */
  lemma BgmSpansRange(env: Env, mix: Clip, segs: seq<Segment>, r: BgmRange, vol: real, fade: nat, source: Clip)
    requires r.start <= r.end <= |segs| && |mix| == Duration(segs)
    requires env.load(r.file) == Some(source) && |source| > 0
    ensures Span(segs, r).0 == Duration(segs[..r.start])
    ensures Span(segs, r).0 + Span(segs, r).1 == Duration(segs[..r.end]) <= |mix|
    ensures AddBgm(env, mix, segs, r, vol, fade).Ok?
    ensures var span := Span(segs, r);
      forall i :: span.0 <= i < span.0 + span.1 ==>
        AddBgm(env, mix, segs, r, vol, fade).value[i] == mix[i] + BgmClip(env, source, span.1, vol, fade)[i - span.0]
    ensures var span := Span(segs, r);
      forall i :: 0 <= i < |mix| && (i < span.0 || span.0 + span.1 <= i) ==>
        AddBgm(env, mix, segs, r, vol, fade).value[i] == mix[i]
  {
    SpanWithin(segs, r);
    AddBgmSamples(env, mix, segs, r, vol, fade, source);
  }

  /** Sample by sample, a loaded range's music added inside its span and nothing outside it. */
  lemma AddBgmSamples(env: Env, mix: Clip, segs: seq<Segment>, r: BgmRange, vol: real, fade: nat, source: Clip)
    requires r.start <= r.end <= |segs| && Span(segs, r).0 + Span(segs, r).1 <= |mix|
    requires env.load(r.file) == Some(source) && |source| > 0
    ensures AddBgm(env, mix, segs, r, vol, fade).Ok?
    ensures var span := Span(segs, r);
      forall i :: span.0 <= i < span.0 + span.1 ==>
        AddBgm(env, mix, segs, r, vol, fade).value[i] == mix[i] + BgmClip(env, source, span.1, vol, fade)[i - span.0]
    ensures var span := Span(segs, r);
      forall i :: 0 <= i < |mix| && (i < span.0 || span.0 + span.1 <= i) ==>
        AddBgm(env, mix, segs, r, vol, fade).value[i] == mix[i]
  {
    AddBgmLoaded(env, mix, segs, r, vol, fade, source);
  }

  /** A range's span ends within the track. */
  lemma SpanWithin(segs: seq<Segment>, r: BgmRange)
    requires r.start <= r.end <= |segs|
    ensures Span(segs, r).0 + Span(segs, r).1 <= Duration(segs)
  {
    DurationMonotone(segs, r.end, |segs|);
    assert segs[..|segs|] == segs;
  }

  /** With music loaded, a range lays its clip over the mix at its first cue point. */
  lemma AddBgmLoaded(env: Env, mix: Clip, segs: seq<Segment>, r: BgmRange, vol: real, fade: nat, source: Clip)
    requires r.start <= r.end <= |segs|
    requires env.load(r.file) == Some(source) && |source| > 0
    ensures AddBgm(env, mix, segs, r, vol, fade)
      == Ok(Overlay(mix, BgmClip(env, source, Span(segs, r).1, vol, fade), Span(segs, r).0))
  {
  }

  // ---------------------------------------------------------------------------
  // Composition, as the renderer runs it
  // ---------------------------------------------------------------------------

  /** The loop over `segments` that builds `voice_track` and `cue_points`. */
  method BuildTrack(segs: seq<Segment>) returns (voiceTrack: Clip, cuePoints: seq<nat>)
    ensures voiceTrack == Track(segs) && cuePoints == CuePoints(segs)
  {
    voiceTrack := [];
    cuePoints := [0];
    var i := 0;
    while i < |segs|
      invariant i <= |segs|
      invariant voiceTrack == Track(segs[..i]) && cuePoints == CuePoints(segs[..i])
    {
      assert segs[..i + 1][..i] == segs[..i];
      voiceTrack := voiceTrack + AudioOf(segs[i]);
      cuePoints := cuePoints + [|voiceTrack|];
      i := i + 1;
    }
    assert segs[..i] == segs;
  }

  /** Once laying a prefix of the ranges fails, laying all of them fails the same way. */
  lemma {:induction false} MixBgmAbortsAt(env: Env, base: Clip, segs: seq<Segment>, rs: seq<BgmRange>, vol: real, fade: nat, k: nat)
    requires InTrack(rs, |segs|) && k <= |rs|
    requires InTrack(rs[..k], |segs|) && MixBgm(env, base, segs, rs[..k], vol, fade).Err?
    ensures MixBgm(env, base, segs, rs, vol, fade) == MixBgm(env, base, segs, rs[..k], vol, fade)
    decreases |rs| - k
  {
    if k == |rs| {
      assert rs[..k] == rs;
    } else {
      assert rs[..k + 1][..k] == rs[..k];
      InTrackPrefix(rs, |segs|, k + 1);
      MixBgmAbortsAt(env, base, segs, rs, vol, fade, k + 1);
    }
  }

  /**
    One pass of the BGM loop: load and low-pass the file, loop and cut it to the span,
    fade it, add the gain, lay it over the mix at the span's start.
  */
  method LayBgm(env: Env, mix: Clip, segs: seq<Segment>, cuePoints: seq<nat>, r: BgmRange, vol: real, fade: nat)
    returns (res: Result<Clip, Error>)
    requires r.start <= r.end <= |segs| && cuePoints == CuePoints(segs)
    ensures res == AddBgm(env, mix, segs, r, vol, fade)
  {
    var loaded := env.load(r.file);
    if loaded.None? {
      return Ok(mix);
    }
    var bgm := env.lowPass(loaded.value);
    if |bgm| == 0 {
      return Err(EmptyBgmSource(r.file));
    }
    var span := Span(segs, r);
    assert cuePoints[r.start] == span.0 && cuePoints[r.end] - cuePoints[r.start] == span.1 by {
      CuePointsAreBoundaries(segs);
    }
    var startTime := cuePoints[r.start];
    var endTime := cuePoints[r.end];
    var duration: nat := endTime - startTime;
    QuotientIsNat(duration, |bgm|);
    bgm := Repeat(bgm, duration / |bgm| + 1);
    bgm := Take(bgm, duration);
    bgm := env.fadeOut(env.fadeIn(bgm, fade), fade);
    bgm := env.gain(bgm, vol);
    assert bgm == BgmClip(env, loaded.value, span.1, vol, fade);
    res := Ok(Overlay(mix, bgm, startTime));
  }

  /** The loop over `bgm_segments`. */
  method LayAllBgm(env: Env, base: Clip, segs: seq<Segment>, cuePoints: seq<nat>, rs: seq<BgmRange>, vol: real, fade: nat)
    returns (res: Result<Clip, Error>)
    requires InTrack(rs, |segs|) && cuePoints == CuePoints(segs)
    ensures res == MixBgm(env, base, segs, rs, vol, fade)
  {
    var finalMix := base;
    var k := 0;
    while k < |rs|
      invariant k <= |rs| && InTrack(rs[..k], |segs|)
      invariant MixBgm(env, base, segs, rs[..k], vol, fade) == Ok(finalMix)
    {
      assert rs[..k + 1][..k] == rs[..k];
      InTrackPrefix(rs, |segs|, k + 1);
      var next := LayBgm(env, finalMix, segs, cuePoints, rs[k], vol, fade);
      if next.Err? {
        MixBgmAbortsAt(env, base, segs, rs, vol, fade, k + 1);
        return next;
      }
      finalMix := next.value;
      k := k + 1;
    }
    assert rs[..k] == rs;
    res := Ok(finalMix);
  }

  /** The loop over `sfx_segments`: each effect overlaid at its position. */
  method LayAllSfx(base: Clip, ps: seq<SfxPlacement>) returns (finalMix: Clip)
    ensures finalMix == MixSfx(base, ps)
  {
    finalMix := base;
    var k := 0;
    while k < |ps|
      invariant k <= |ps| && finalMix == MixSfx(base, ps[..k])
    {
      assert ps[..k + 1][..k] == ps[..k];
      finalMix := Overlay(finalMix, ps[k].clip, ps[k].time);
      k := k + 1;
    }
    assert ps[..k] == ps;
  }

  /** The composition of a timeline: track, music, effects. */
  method Composite(env: Env, tl: Timeline, fade: nat) returns (r: Result<Clip, Error>)
    requires InTrack(tl.bgmRanges, |tl.segments|)
    ensures r == Mix(env, tl, fade)
  {
    var voiceTrack, cuePoints := BuildTrack(tl.segments);
    var withBgm := LayAllBgm(env, voiceTrack, tl.segments, cuePoints, tl.bgmRanges, tl.bgmVolume, fade);
    if withBgm.Err? {
      return Err(withBgm.error);
    }
    var finalMix := LayAllSfx(withBgm.value, tl.sfx);
    r := Ok(finalMix);
  }

  /**
    `process_vml_file`: the script's lines (read by the caller) compiled to a timeline
    and composed; the result is the audio the renderer exports, or the error that
    stops it.
  */
  method ProcessVmlFile(env: Env, v: Variant, lines: seq<string>, fade: nat := DefaultFadeMs) returns (r: Result<Clip, Error>)
    ensures r == Render(env, v, lines, fade)
  {
    var tl := CompileScript(env, v, lines);
    if tl.Err? {
      return Err(tl.error);
    }
    TimelineLemmas.BuildWellFormed(env, v, Recognize(lines));
    r := Composite(env, tl.value, fade);
  }
}
