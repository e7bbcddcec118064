/**
  The time cursor over a run of pauses, as both renderers write it: a `[pause:s]`
  line appends silence of s seconds truncated to a whole number of milliseconds,
  but advances the cursor by the untruncated s * 1000; an effect that follows is
  overlaid at the cursor truncated to whole milliseconds. Pause lengths here are
  those untruncated millisecond values, taken as exact non-negative reals.

  The rest of the model advances the cursor by the same whole number of milliseconds
  it appends (Timeline.DoPause), so that the cursor is always the track length so far
  (TimelineLemmas.RunConsistent).
*/
module PauseCursor {

  /** The cursor after the pauses, as written: the sum of the untruncated lengths. */
  function CursorAsWritten(pausesMs: seq<real>): real
  {
    if pausesMs == [] then 0.0
    else CursorAsWritten(pausesMs[..|pausesMs| - 1]) + pausesMs[|pausesMs| - 1]
  }

  /** The silence actually appended: each pause truncated to whole milliseconds. */
  function SilenceAsWritten(pausesMs: seq<real>): int
  {
    if pausesMs == [] then 0
    else SilenceAsWritten(pausesMs[..|pausesMs| - 1]) + pausesMs[|pausesMs| - 1].Floor
  }

  /** Where an effect right after the pauses is overlaid: the cursor, truncated. */
  function EffectPositionAsWritten(pausesMs: seq<real>): int
  {
    CursorAsWritten(pausesMs).Floor
  }

  predicate NonNegative(pausesMs: seq<real>)
  {
    forall k :: 0 <= k < |pausesMs| ==> pausesMs[k] >= 0.0
  }

  /**
    Two `[pause:1.2345]` lines: 2468 ms of silence are appended, but an effect after
    them is overlaid at 2469 ms, one millisecond past the boundary where it belongs.
  */
  lemma CursorOutrunsTrack()
    ensures SilenceAsWritten([1234.5, 1234.5]) == 2468
    ensures EffectPositionAsWritten([1234.5, 1234.5]) == 2469
  {
    var ps := [1234.5, 1234.5];
    assert ps[..1] == [1234.5] && [1234.5][..0] == [];
    assert CursorAsWritten(ps) == 2469.0;
  }

  /**
    The drift is never negative and grows by less than one millisecond per pause: it
    can reach any number of milliseconds in a long enough script.
  */
  lemma {:induction false} DriftBound(pausesMs: seq<real>)
    requires NonNegative(pausesMs)
    ensures SilenceAsWritten(pausesMs) as real <= CursorAsWritten(pausesMs)
    ensures CursorAsWritten(pausesMs) <= SilenceAsWritten(pausesMs) as real + |pausesMs| as real
    ensures pausesMs != [] ==> CursorAsWritten(pausesMs) < SilenceAsWritten(pausesMs) as real + |pausesMs| as real
  {
    if pausesMs != [] {
      var init := pausesMs[..|pausesMs| - 1];
      assert NonNegative(init);
      DriftBound(init);
    }
  }

  /** With whole-millisecond pauses the cursor as written stays on the track. */
  lemma {:induction false} WholePausesAgree(pausesMs: seq<real>)
    requires forall k :: 0 <= k < |pausesMs| ==> pausesMs[k] == pausesMs[k].Floor as real
    ensures CursorAsWritten(pausesMs) == SilenceAsWritten(pausesMs) as real
    ensures EffectPositionAsWritten(pausesMs) == SilenceAsWritten(pausesMs)
  {
    if pausesMs != [] {
      WholePausesAgree(pausesMs[..|pausesMs| - 1]);
    }
  }
}
