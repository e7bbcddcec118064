/**
  Properties of the line loop of `process_vml_file`: what each kind of line does to
  the loop's variables, the invariant every line keeps, and facts about whole scripts.
*/
module TimelineLemmas {
  import opened Wrappers
  import opened Audio
  import opened Markup
  import opened Timeline

  // ---------------------------------------------------------------------------
  // Segment lengths and cue points
  // ---------------------------------------------------------------------------

  /** Appending a segment adds its length to the total. */
  lemma DurationAppend(segs: seq<Segment>, s: Segment)
    ensures Duration(segs + [s]) == Duration(segs) + Length(s)
  {
    assert (segs + [s])[..|segs|] == segs;
  }

  /** The end of the segments so far is a cue point. */
  lemma EndIsCue(segs: seq<Segment>)
    ensures OnCue(Duration(segs), segs)
  {
    assert segs[..|segs|] == segs;
  }

  /** A cue point stays a cue point when a segment is appended. */
  lemma OnCueGrows(t: nat, segs: seq<Segment>, s: Segment)
    requires OnCue(t, segs)
    ensures OnCue(t, segs + [s])
  {
    var j :| 0 <= j <= |segs| && Duration(segs[..j]) == t;
    assert (segs + [s])[..j] == segs[..j];
  }

  /** Placements keep their order, and stay on cue points, when a segment is appended. */
  lemma PlacedInOrderGrows(ps: seq<SfxPlacement>, segs: seq<Segment>, s: Segment)
    requires PlacedInOrder(ps, segs)
    ensures PlacedInOrder(ps, segs + [s])
  {
    DurationAppend(segs, s);
    forall k | 0 <= k < |ps|
      ensures OnCue(ps[k].time, segs + [s])
    {
      OnCueGrows(ps[k].time, segs, s);
    }
  }

  /** Closing the open range keeps the recorded ranges ordered and within the segments. */
  lemma CloseBgmWithin(st: State)
    requires RangesWithin(st.bgmRanges, st.bgmStart) && st.bgmStart <= |st.segments|
    ensures RangesWithin(CloseBgm(st), |st.segments|)
    ensures st.currentBgm == "" ==> CloseBgm(st) == st.bgmRanges
    ensures st.currentBgm != "" ==> CloseBgm(st)[..|st.bgmRanges|] == st.bgmRanges
    ensures st.currentBgm != "" ==> CloseBgm(st)[|st.bgmRanges|] == BgmRange(st.currentBgm, st.bgmStart, |st.segments|)
  {
    var rs := CloseBgm(st);
    if st.currentBgm != "" {
      assert rs == st.bgmRanges + [BgmRange(st.currentBgm, st.bgmStart, |st.segments|)];
      assert rs[..|st.bgmRanges|] == st.bgmRanges;
    }
  }

  /** Being a later state of the same run is transitive. */
  lemma ExtendsTrans(v: Variant, a: State, b: State, c: State)
    requires Extends(v, a, b) && Extends(v, b, c)
    ensures Extends(v, a, c)
  {
    if a.sfx != [] {
      var k := |a.sfx| - 1;
      if |a.sfx| < |b.sfx| {
        assert c.sfx[k] == b.sfx[k];
      } else {
        assert c.sfx[k].clip <= b.sfx[k].clip <= a.sfx[k].clip;
      }
    }
  }

  // ---------------------------------------------------------------------------
  // One line at a time
  // ---------------------------------------------------------------------------

  /**
    The flush: empty pending text changes nothing. Otherwise the text is synthesized
    with the voice, rate and voice volume in force, appended as exactly one voice
    segment, the cursor advances by its length and the text is cleared; nothing
    else changes. It fails exactly when synthesis fails, and with a Piper voice
    that has no model it fails with that voice's name.
  */
  lemma FlushAppendsOneVoice(env: Env, v: Variant, st: State)
    ensures st.text == "" ==> Flush(env, v, st) == Ok(st)
    ensures Flush(env, v, st).Err? <==> st.text != "" && Synthesize(env, v, st.text, st.settings).Err?
    ensures st.text != "" && v == Piper && !HasPiperModel(st.settings.voice) ==>
      Flush(env, v, st) == Err(UnknownVoice(st.settings.voice))
    ensures st.text != "" && Flush(env, v, st).Ok? ==>
      var f := Flush(env, v, st).value;
      && |f.segments| == |st.segments| + 1
      && f.segments[..|st.segments|] == st.segments
      && f.segments[|st.segments|].Voice?
      && Synthesize(env, v, st.text, st.settings) == Ok(f.segments[|st.segments|].audio)
      && f.currentTime == st.currentTime + Length(f.segments[|st.segments|])
      && f.text == ""
      && f.(segments := st.segments, currentTime := st.currentTime, text := st.text) == st
  {
    if st.text != "" && Flush(env, v, st).Ok? {
      var f := Flush(env, v, st).value;
      assert f.segments[..|st.segments|] == st.segments;
    }
  }

  /** The flush keeps the loop invariant, and the state after it is a later state of the run. */
  lemma FlushConsistent(env: Env, v: Variant, st: State)
    requires Consistent(v, st) && Flush(env, v, st).Ok?
    ensures Consistent(v, Flush(env, v, st).value) && Extends(v, st, Flush(env, v, st).value)
  {
    if st.text != "" {
      var f := Flush(env, v, st).value;
      var x := f.segments[|st.segments|];
      assert f.segments == st.segments + [x];
      DurationAppend(st.segments, x);
      PlacedInOrderGrows(st.sfx, st.segments, x);
    }
  }

  /**
    A pause line flushes, then appends exactly one silent segment of the parsed
    length and advances the cursor by that same length; nothing else changes. A
    value the number parser rejects aborts the run.
  */
  lemma PauseAppendsSilence(env: Env, v: Variant, st: State, seconds: string)
    requires Flush(env, v, st).Ok?
    ensures DoPause(env, v, st, seconds).Err? <==> env.pauseMillis(seconds).None?
    ensures env.pauseMillis(seconds).Some? ==>
      var f, ms, n := Flush(env, v, st).value, env.pauseMillis(seconds).value, DoPause(env, v, st, seconds).value;
      && n.segments == f.segments + [Pause(ms)]
      && AudioOf(n.segments[|f.segments|]) == Silent(ms)
      && n.currentTime == f.currentTime + ms
      && n.(segments := f.segments, currentTime := f.currentTime) == f
  {
  }

  /** A pause line keeps the loop invariant. */
  lemma PauseConsistent(env: Env, v: Variant, st: State, seconds: string)
    requires Consistent(v, st) && DoPause(env, v, st, seconds).Ok?
    ensures Consistent(v, DoPause(env, v, st, seconds).value) && Extends(v, st, DoPause(env, v, st, seconds).value)
  {
    FlushConsistent(env, v, st);
    var f := Flush(env, v, st).value;
    var n := DoPause(env, v, st, seconds).value;
    var x := Pause(env.pauseMillis(seconds).value);
    assert n.segments == f.segments + [x];
    DurationAppend(f.segments, x);
    PlacedInOrderGrows(f.sfx, f.segments, x);
    ExtendsTrans(v, st, f, n);
  }

  /**
    A bgm line flushes, records the open range (if a file is open) as ending at the
    current segment count, and opens the new file there; segments, effects, time and
    settings are as the flush left them.
  */
  lemma BgmOpensRange(env: Env, v: Variant, st: State, path: string)
    requires Flush(env, v, st).Ok?
    ensures DoBgm(env, v, st, path).Ok?
    ensures
      var f, n := Flush(env, v, st).value, DoBgm(env, v, st, path).value;
      && n.currentBgm == path
      && n.bgmStart == |n.segments|
      && (f.currentBgm == "" ==> n.bgmRanges == f.bgmRanges)
      && (f.currentBgm != "" ==> n.bgmRanges == f.bgmRanges + [BgmRange(f.currentBgm, f.bgmStart, |f.segments|)])
      && n.(bgmRanges := f.bgmRanges, currentBgm := f.currentBgm, bgmStart := f.bgmStart) == f
  {
  }

  /** A bgm line keeps the loop invariant. */
  lemma BgmConsistent(env: Env, v: Variant, st: State, path: string)
    requires Consistent(v, st) && DoBgm(env, v, st, path).Ok?
    ensures Consistent(v, DoBgm(env, v, st, path).value) && Extends(v, st, DoBgm(env, v, st, path).value)
  {
    FlushConsistent(env, v, st);
    var f := Flush(env, v, st).value;
    CloseBgmWithin(f);
    ExtendsTrans(v, st, f, DoBgm(env, v, st, path).value);
  }

  /**
    An sfx line flushes; then a file that does not load changes nothing more (the
    previous placement is not trimmed either). A file that loads is placed at the
    cursor with the effect volume in force, which does not move the cursor. Only
    the system-voice renderer touches the previous placement: it keeps its start
    and exactly the part of its clip that plays before the new one starts. Earlier
    placements are untouched.
  */
  lemma SfxPlacedAtCursor(env: Env, v: Variant, st: State, path: string)
    requires Consistent(v, st) && Flush(env, v, st).Ok?
    ensures DoSfx(env, v, st, path).Ok?
    ensures env.load(path).None? ==> DoSfx(env, v, st, path) == Flush(env, v, st)
    ensures env.load(path).Some? ==>
      var f, n := Flush(env, v, st).value, DoSfx(env, v, st, path).value;
      var m := |f.sfx|;
      && |n.sfx| == m + 1
      && n.sfx[m] == SfxPlacement(env.gain(env.load(path).value, f.settings.sfxVolume), f.currentTime)
      && n.(sfx := f.sfx) == f
      && (forall k :: 0 <= k < m - 1 ==> n.sfx[k] == f.sfx[k])
      && (!TrimsSfx(v) ==> n.sfx[..m] == f.sfx)
      && (TrimsSfx(v) && m > 0 ==>
            && n.sfx[m - 1].time == f.sfx[m - 1].time
            && n.sfx[m - 1].clip <= f.sfx[m - 1].clip
            && n.sfx[m - 1].time + |n.sfx[m - 1].clip| <= n.sfx[m].time
            && n.sfx[..m] == TrimLast(f.sfx, f.currentTime)
            && |n.sfx[m - 1].clip| ==
                 if f.sfx[m - 1].time + |f.sfx[m - 1].clip| <= f.currentTime then |f.sfx[m - 1].clip|
                 else f.currentTime - f.sfx[m - 1].time)
  {
    FlushConsistent(env, v, st);
    var f := Flush(env, v, st).value;
    if env.load(path).Some? && f.sfx != [] {
      var m := |f.sfx|;
      assert f.sfx[m - 1].time <= f.currentTime;
      var n := DoSfx(env, v, st, path).value;
      assert n.sfx[..m] == (if TrimsSfx(v) then TrimLast(f.sfx, f.currentTime) else f.sfx);
      assert forall k :: 0 <= k < m - 1 ==> n.sfx[k] == n.sfx[..m][k];
    }
  }

  /**
    Appending a placement at the end of the track keeps placements in order, given
    that the earlier ones kept their start times and only the last may have changed;
    with trimming, the last one must stop by the new start.
  */
  lemma PlaceAtEnd(ps: seq<SfxPlacement>, q: seq<SfxPlacement>, p: SfxPlacement, segs: seq<Segment>, trims: bool)
    requires PlacedInOrder(ps, segs) && (trims ==> NoOverlap(ps))
    requires p.time == Duration(segs)
    requires |q| == |ps| && forall k :: 0 <= k < |ps| ==> q[k].time == ps[k].time
    requires forall k :: 0 <= k < |ps| - 1 ==> q[k] == ps[k]
    requires trims && ps != [] ==> q[|ps| - 1].time + |q[|ps| - 1].clip| <= p.time
    ensures PlacedInOrder(q + [p], segs) && (trims ==> NoOverlap(q + [p]))
  {
    EndIsCue(segs);
    var r := q + [p];
    assert forall k :: 0 <= k < |q| ==> r[k] == q[k];
    assert forall k :: 0 <= k < |ps| ==> OnCue(r[k].time, segs) && r[k].time <= Duration(segs);
  }

  /** An sfx line leads to a later state of the run. */
  lemma SfxExtends(env: Env, v: Variant, st: State, path: string)
    requires Consistent(v, st) && DoSfx(env, v, st, path).Ok?
    ensures Extends(v, Flush(env, v, st).value, DoSfx(env, v, st, path).value)
  {
    SfxPlacedAtCursor(env, v, st, path);
  }

  /** An sfx line keeps the loop invariant. */
  lemma SfxConsistent(env: Env, v: Variant, st: State, path: string)
    requires Consistent(v, st) && DoSfx(env, v, st, path).Ok?
    ensures Consistent(v, DoSfx(env, v, st, path).value) && Extends(v, st, DoSfx(env, v, st, path).value)
  {
    FlushConsistent(env, v, st);
    var f := Flush(env, v, st).value;
    var n := DoSfx(env, v, st, path).value;
    if env.load(path).Some? {
      SfxPlacedAtCursor(env, v, st, path);
      var m := |f.sfx|;
      PlaceAtEnd(f.sfx, n.sfx[..m], n.sfx[m], f.segments, TrimsSfx(v));
      assert n.sfx == n.sfx[..m] + [n.sfx[m]];
    }
    SfxExtends(env, v, st, path);
    ExtendsTrans(v, st, f, n);
  }

  /** Which directives only set a value. */
  predicate IsSetting(d: Directive)
  {
    d.SetVoice? || d.SetRate? || d.SetVoiceVolume? || d.SetBgmVolume? || d.SetSfxVolume?
  }

  /**
    A setting line overwrites its own setting and nothing else: no segment, range or
    effect is added, and neither the cursor nor the pending text changes. Only a
    volume the number parser rejects aborts the run.
  */
  lemma SettingChangesOnlyItself(env: Env, v: Variant, st: State, d: Directive)
    requires IsSetting(d)
    ensures Apply(env, v, st, d).Err? <==>
      (d.SetVoiceVolume? || d.SetBgmVolume? || d.SetSfxVolume?) && env.parseFloat(d.volume).None?
    ensures Apply(env, v, st, d).Ok? ==>
      var n := Apply(env, v, st, d).value;
      && n.(settings := st.settings) == st
      && (d.SetVoice? ==> n.settings == st.settings.(voice := d.name))
      && (d.SetRate? ==> n.settings == st.settings.(rate := d.rate))
      && (d.SetVoiceVolume? ==> n.settings == st.settings.(voiceVolume := env.parseFloat(d.volume).value))
      && (d.SetBgmVolume? ==> n.settings == st.settings.(bgmVolume := env.parseFloat(d.volume).value))
      && (d.SetSfxVolume? ==> n.settings == st.settings.(sfxVolume := env.parseFloat(d.volume).value))
  {
  }

  /**
    A line that is blank after stripping is skipped; any other stripped line that
    matches no directive is appended to the pending text after a space, and nothing
    else changes.
  */
  lemma PlainLineIsNarration(env: Env, v: Variant, st: State, line: string)
    requires NoDirective(line)
    ensures line == [] ==> Apply(env, v, st, Classify(line)) == Ok(st)
    ensures line != [] ==> Apply(env, v, st, Classify(line)) == Ok(st.(text := st.text + " " + line))
  {
    var d := Classify(line);
    NarrationExactly(line);
    if line == [] {
      assert d == Blank;
    } else {
      assert d == Narration(line);
    }
  }

  /** Every kind of line keeps the loop invariant, and leads to a later state of the run. */
  lemma StepConsistent(env: Env, v: Variant, st: State, d: Directive)
    requires Consistent(v, st) && Apply(env, v, st, d).Ok?
    ensures Consistent(v, Apply(env, v, st, d).value) && Extends(v, st, Apply(env, v, st, d).value)
  {
    match d
    case PauseFor(s) => PauseConsistent(env, v, st, s);
    case PlayBgm(path) => BgmConsistent(env, v, st, path);
    case PlaySfx(path) => SfxConsistent(env, v, st, path);
    case _ =>
  }

  // ---------------------------------------------------------------------------
  // Whole scripts
  // ---------------------------------------------------------------------------

  /** The loop invariant holds after every prefix of the script that has not failed. */
  lemma {:induction false} RunConsistent(env: Env, v: Variant, ds: seq<Directive>)
    ensures Run(env, v, ds).Ok? ==> Consistent(v, Run(env, v, ds).value)
  {
    if ds != [] {
      var init := ds[..|ds| - 1];
      RunConsistent(env, v, init);
      if Run(env, v, init).Ok? && Run(env, v, ds).Ok? {
        StepConsistent(env, v, Run(env, v, init).value, ds[|ds| - 1]);
      }
    }
  }

  /**
    The lists only grow: segments and ranges are only appended to, effect start times
    never change, and an effect clip is only ever cut short, and only the one that was
    last; the cursor never goes back.
  */
  lemma {:induction false} RunExtends(env: Env, v: Variant, ds: seq<Directive>, i: nat)
    requires i <= |ds|
    ensures Run(env, v, ds[..i]).Ok? && Run(env, v, ds).Ok? ==>
      Extends(v, Run(env, v, ds[..i]).value, Run(env, v, ds).value)
  {
    if i == |ds| {
      assert ds[..i] == ds;
    } else {
      var init := ds[..|ds| - 1];
      assert init[..i] == ds[..i];
      RunExtends(env, v, init, i);
      if Run(env, v, ds[..i]).Ok? && Run(env, v, ds).Ok? {
        RunConsistent(env, v, init);
        var st := Run(env, v, init).value;
        StepConsistent(env, v, st, ds[|ds| - 1]);
        ExtendsTrans(v, Run(env, v, ds[..i]).value, st, Run(env, v, ds).value);
      }
    }
  }

  /**
    A script that compiles gives a timeline the compositor can use: every range lies
    within the segments, in order, and names a file; every effect starts on a cue
    point within the track, in time order, and (when trimming) stops before the next.
  */
  lemma BuildWellFormed(env: Env, v: Variant, ds: seq<Directive>)
    ensures Build(env, v, ds).Ok? ==> WellFormed(v, Build(env, v, ds).value)
  {
    RunConsistent(env, v, ds);
    if Build(env, v, ds).Ok? {
      var st := Run(env, v, ds).value;
      FlushConsistent(env, v, st);
      CloseBgmWithin(Flush(env, v, st).value);
    }
  }

  // ---------------------------------------------------------------------------
  // Scripts without directives
  // ---------------------------------------------------------------------------

  /** The pending text a run of blank and narration lines accumulates: each narration after a space. */
  function Joined(ds: seq<Directive>): string
  {
    if ds == [] then ""
    else if ds[|ds| - 1].Narration? then Joined(ds[..|ds| - 1]) + " " + ds[|ds| - 1].text
    else Joined(ds[..|ds| - 1])
  }

  /** The accumulated text is empty exactly when every line was blank. */
  lemma {:induction false} JoinedEmpty(ds: seq<Directive>)
    requires forall k :: 0 <= k < |ds| ==> ds[k].Blank? || ds[k].Narration?
    ensures Joined(ds) == "" <==> forall k :: 0 <= k < |ds| ==> ds[k].Blank?
  {
    if ds != [] {
      var init := ds[..|ds| - 1];
      JoinedEmpty(init);
      assert forall k :: 0 <= k < |init| ==> init[k] == ds[k];
      if ds[|ds| - 1].Narration? {
        assert |Joined(ds)| > 0;
      }
    }
  }

  /** Blank and narration lines only accumulate text: no segment, range or effect, and default settings. */
  lemma {:induction false} NarrationOnlyRun(env: Env, v: Variant, ds: seq<Directive>)
    requires forall k :: 0 <= k < |ds| ==> ds[k].Blank? || ds[k].Narration?
    ensures Run(env, v, ds) == Ok(Initial(v).(text := Joined(ds)))
  {
    if ds != [] {
      var init := ds[..|ds| - 1];
      assert forall k :: 0 <= k < |init| ==> init[k] == ds[k];
      NarrationOnlyRun(env, v, init);
      var st := Initial(v).(text := Joined(init));
      var d := ds[|ds| - 1];
      assert Run(env, v, ds) == Apply(env, v, st, d);
      if d.Narration? {
        assert Apply(env, v, st, d) == Ok(st.(text := st.text + " " + d.text));
      } else {
        assert Apply(env, v, st, d) == Ok(st);
      }
    }
  }

  /** Lines that match no directive are recognised as blank exactly when they strip to nothing, and as narration otherwise. */
  lemma PlainLinesRecognized(lines: seq<string>)
    requires forall k :: 0 <= k < |lines| ==> NoDirective(Strip(lines[k]))
    ensures forall k :: 0 <= k < |lines| ==> (Recognize(lines)[k].Blank? <==> Strip(lines[k]) == [])
    ensures forall k :: 0 <= k < |lines| ==> Recognize(lines)[k].Blank? || Recognize(lines)[k].Narration?
  {
    var ds := Recognize(lines);
    forall k | 0 <= k < |ds|
      ensures ds[k].Blank? <==> Strip(lines[k]) == []
      ensures ds[k].Blank? || ds[k].Narration?
    {
      assert ds[k] == Classify(Strip(lines[k]));
      NarrationExactly(Strip(lines[k]));
    }
  }

  /**
    Blank and narration lines alone build one voice segment, the synthesis of all the
    narration with the default settings, or nothing at all when every line is blank.
  */
  lemma NarrationOnlyBuild(env: Env, v: Variant, ds: seq<Directive>)
    requires forall k :: 0 <= k < |ds| ==> ds[k].Blank? || ds[k].Narration?
    ensures Joined(ds) == "" ==> Build(env, v, ds) == Ok(Timeline([], [], [], 0.4))
    ensures Joined(ds) != "" && Synthesize(env, v, Joined(ds), DefaultSettings(v)).Err? ==>
      Build(env, v, ds) == Err(Synthesize(env, v, Joined(ds), DefaultSettings(v)).error)
    ensures Joined(ds) != "" && Synthesize(env, v, Joined(ds), DefaultSettings(v)).Ok? ==>
      Build(env, v, ds) == Ok(Timeline([Voice(Synthesize(env, v, Joined(ds), DefaultSettings(v)).value)], [], [], 0.4))
  {
    NarrationOnlyRun(env, v, ds);
    var st := Initial(v).(text := Joined(ds));
    assert Build(env, v, ds) == Finish(env, v, st);
    var tts := Synthesize(env, v, st.text, st.settings);
    FlushAppendsOneVoice(env, v, st);
    if st.text != "" && tts.Ok? {
      var f := Flush(env, v, st).value;
      assert f.segments == [Voice(tts.value)];
    }
  }

  /**
    A script with no directive lines compiles to exactly one voice segment, whose
    length is the whole timeline's, holding the synthesis of all its narration with
    the default settings; or to an empty timeline when every line is blank. No range
    and no effect is recorded, and the BGM volume is the default.
  */
  lemma NarrationOnlyScript(env: Env, v: Variant, lines: seq<string>)
    requires forall k :: 0 <= k < |lines| ==> NoDirective(Strip(lines[k]))
    ensures Joined(Recognize(lines)) == "" <==> forall k :: 0 <= k < |lines| ==> Strip(lines[k]) == []
    ensures Joined(Recognize(lines)) == "" ==> Compile(env, v, lines) == Ok(Timeline([], [], [], 0.4))
    ensures Joined(Recognize(lines)) != "" && Compile(env, v, lines).Ok? ==>
      var tl := Compile(env, v, lines).value;
      && |tl.segments| == 1 && tl.segments[0].Voice?
      && Synthesize(env, v, Joined(Recognize(lines)), DefaultSettings(v)) == Ok(tl.segments[0].audio)
      && Duration(tl.segments) == |tl.segments[0].audio|
      && tl.bgmRanges == [] && tl.sfx == [] && tl.bgmVolume == 0.4
  {
    var ds := Recognize(lines);
    PlainLinesRecognized(lines);
    JoinedEmpty(ds);
    NarrationOnlyBuild(env, v, ds);
    if Joined(ds) != "" && Compile(env, v, lines).Ok? {
      var tl := Compile(env, v, lines).value;
      assert tl.segments[..0] == [];
    }
  }

  // ---------------------------------------------------------------------------
  // The BGM volume
  // ---------------------------------------------------------------------------

  /**
    vol is the value of the last `[bgm_volume:]` line of ds, or the default 0.4 when
    ds has none.
  */
  predicate LastBgmVolume(env: Env, ds: seq<Directive>, vol: real)
  {
    || ((forall k :: 0 <= k < |ds| ==> !ds[k].SetBgmVolume?) && vol == 0.4)
    || (exists k :: 0 <= k < |ds| && ds[k].SetBgmVolume? && env.parseFloat(ds[k].volume) == Some(vol)
          && forall j :: k < j < |ds| ==> !ds[j].SetBgmVolume?)
  }

  /** Only a `[bgm_volume:]` line changes the BGM volume, and it sets the parsed value. */
  lemma ApplyBgmVolume(env: Env, v: Variant, st: State, d: Directive)
    requires Apply(env, v, st, d).Ok?
    ensures !d.SetBgmVolume? ==> Apply(env, v, st, d).value.settings.bgmVolume == st.settings.bgmVolume
    ensures d.SetBgmVolume? ==> env.parseFloat(d.volume) == Some(Apply(env, v, st, d).value.settings.bgmVolume)
  {
    match d
    case PauseFor(s) => FlushAppendsOneVoice(env, v, st);
    case PlayBgm(path) => FlushAppendsOneVoice(env, v, st);
    case PlaySfx(path) => FlushAppendsOneVoice(env, v, st);
    case _ =>
  }

  /** The last volume set stays the last one when a line that does not set it is appended. */
  lemma LastBgmVolumeGrows(env: Env, ds: seq<Directive>, d: Directive, vol: real)
    requires LastBgmVolume(env, ds, vol) && !d.SetBgmVolume?
    ensures LastBgmVolume(env, ds + [d], vol)
  {
    var e := ds + [d];
    assert forall k :: 0 <= k < |ds| ==> e[k] == ds[k];
    if !(forall k :: 0 <= k < |ds| ==> !ds[k].SetBgmVolume?) {
      var k :| 0 <= k < |ds| && ds[k].SetBgmVolume? && env.parseFloat(ds[k].volume) == Some(vol)
        && forall j :: k < j < |ds| ==> !ds[j].SetBgmVolume?;
      assert e[k].SetBgmVolume? && env.parseFloat(e[k].volume) == Some(vol);
    }
  }

  /** After any prefix of the script, the BGM volume in force is the last one set. */
  lemma {:induction false} RunBgmVolume(env: Env, v: Variant, ds: seq<Directive>)
    ensures Run(env, v, ds).Ok? ==> LastBgmVolume(env, ds, Run(env, v, ds).value.settings.bgmVolume)
  {
    if ds != [] && Run(env, v, ds).Ok? {
      var init := ds[..|ds| - 1];
      var d := ds[|ds| - 1];
      assert ds == init + [d];
      RunBgmVolume(env, v, init);
      var st := Run(env, v, init).value;
      ApplyBgmVolume(env, v, st, d);
      var vol := Run(env, v, ds).value.settings.bgmVolume;
      if d.SetBgmVolume? {
        assert ds[|ds| - 1].SetBgmVolume? && env.parseFloat(ds[|ds| - 1].volume) == Some(vol);
      } else {
        LastBgmVolumeGrows(env, init, d, vol);
      }
    }
  }

  /**
    Every BGM range is mixed at one volume: the one the last `[bgm_volume:]` line of the
    script set, not the one in force when the range was opened.
  */
  lemma BgmVolumeIsLastSet(env: Env, v: Variant, ds: seq<Directive>)
    ensures Build(env, v, ds).Ok? ==> LastBgmVolume(env, ds, Build(env, v, ds).value.bgmVolume)
  {
    RunBgmVolume(env, v, ds);
    if Build(env, v, ds).Ok? {
      FlushAppendsOneVoice(env, v, Run(env, v, ds).value);
    }
  }
}
