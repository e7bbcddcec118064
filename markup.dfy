/**
  Recognition of one line of a Voice Markup (VML) script.

  Each line is stripped of surrounding whitespace (`str.strip()`); an empty line is
  skipped. Otherwise the directive patterns are tried in a fixed order with
  `re.match`, which anchors only at the start of the line:
    `\[voice:(.*?)\]`, `\[rate:(\d+)\]`, `\[voice_volume:(.*?)\]`,
    `\[bgm_volume:(.*?)\]`, `\[sfx_volume:(.*?)\]`, `\[pause:(.*?)\]`,
    `\[bgm:(.*?)\]`, `\[sfx:(.*?)\]`.
  Whatever follows the closing bracket is ignored. A line that matches none of them
  is narration.
*/
module Markup {
  import opened Wrappers

  /** One recognised script line. Numeric values stay as text: parsing them is the renderer's business. */
  datatype Directive =
    | Blank
    | SetVoice(name: string)
    | SetRate(rate: nat)
    | SetVoiceVolume(volume: string)
    | SetBgmVolume(volume: string)
    | SetSfxVolume(volume: string)
    | PauseFor(seconds: string)
    | PlayBgm(path: string)
    | PlaySfx(path: string)
    | Narration(text: string)

  /** The characters Python's `str.isspace` accepts, which `str.strip()` removes. */
  predicate IsSpace(c: char)
  {
    || c == ' ' || c == '\t' || c == '\n' || c == '\r'
    || c == '\U{0B}' || c == '\U{0C}'
    || ('\U{1C}' <= c <= '\U{1F}')
    || c == '\U{85}' || c == '\U{A0}' || c == '\U{1680}'
    || ('\U{2000}' <= c <= '\U{200A}')
    || c == '\U{2028}' || c == '\U{2029}' || c == '\U{202F}' || c == '\U{205F}' || c == '\U{3000}'
  }

  /** `s.lstrip()`: drops the leading whitespace. */
  function TrimStart(s: string): (r: string)
    ensures |r| <= |s|
    ensures r == [] || !IsSpace(r[0])
  {
    if s != [] && IsSpace(s[0]) then TrimStart(s[1..]) else s
  }

  /** `lstrip()` keeps a suffix of the text and what it drops is all whitespace. */
  lemma {:induction false} TrimStartDropsSpace(s: string)
    ensures TrimStart(s) == s[|s| - |TrimStart(s)|..]
    ensures forall i :: 0 <= i < |s| - |TrimStart(s)| ==> IsSpace(s[i])
  {
    if s != [] && IsSpace(s[0]) {
      TrimStartDropsSpace(s[1..]);
    }
  }

  /** `s.rstrip()`: drops the trailing whitespace. */
  function TrimEnd(s: string): (r: string)
    ensures |r| <= |s|
    ensures r == [] || !IsSpace(r[|r| - 1])
  {
    if s != [] && IsSpace(s[|s| - 1]) then TrimEnd(s[..|s| - 1]) else s
  }

  /** `rstrip()` keeps a prefix of the text and what it drops is all whitespace. */
  lemma {:induction false} TrimEndDropsSpace(s: string)
    ensures TrimEnd(s) == s[..|TrimEnd(s)|]
    ensures forall i :: |TrimEnd(s)| <= i < |s| ==> IsSpace(s[i])
  {
    if s != [] && IsSpace(s[|s| - 1]) {
      TrimEndDropsSpace(s[..|s| - 1]);
    }
  }

  /** `s.strip()`. */
  function Strip(s: string): (r: string)
    ensures |r| <= |s|
    ensures r == [] || (!IsSpace(r[0]) && !IsSpace(r[|r| - 1]))
  {
    TrimEndDropsSpace(TrimStart(s));
    TrimEnd(TrimStart(s))
  }

  /**
    The lazy group `(.*?)\]`: the text up to the first `]`. `.` does not match a
    line feed, so a line feed before the first `]` makes the match fail.
  */
  function UpToBracket(s: string): (r: Option<string>)
    ensures r.Some? ==> |r.value| < |s| && s[|r.value|] == ']' && r.value == s[..|r.value|]
    ensures r.Some? ==> forall j :: 0 <= j < |r.value| ==> s[j] != ']' && s[j] != '\n'
    ensures r.None? ==> forall k :: 0 <= k < |s| && s[k] == ']' ==> '\n' in s[..k]
  {
    if s == [] then None
    else if s[0] == ']' then Some([])
    else if s[0] == '\n' then None
    else match UpToBracket(s[1..])
      case None => None
      case Some(v) => Some([s[0]] + v)
  }

  /** The opening `[tag:` of a directive. */
  function Opening(tag: string): string
  {
    "[" + tag + ":"
  }

  /** `re.match(r"\[<tag>:(.*?)\]", line)`, giving group 1 when it matches. */
  function Capture(line: string, tag: string): (r: Option<string>)
    ensures r.Some? ==> Opening(tag) + r.value + "]" <= line
    ensures r.Some? ==> forall j :: 0 <= j < |r.value| ==> r.value[j] != ']'
    ensures r.None? && Opening(tag) <= line ==>
      forall k :: |Opening(tag)| <= k < |line| && line[k] == ']' ==> '\n' in line[|Opening(tag)|..k]
  {
    var p := Opening(tag);
    if p <= line then
      var r := UpToBracket(line[|p|..]);
      if r.Some? then
        assert line[..|p| + |r.value| + 1] == p + r.value + "]";
        r
      else
        assert forall k :: |p| <= k < |line| ==> line[|p|..][k - |p|] == line[k];
        assert forall k :: |p| <= k < |line| ==> line[|p|..][..k - |p|] == line[|p|..k];
        r
    else None
  }

  /** `\d` restricted to ASCII digits. */
  predicate IsDigit(c: char)
  {
    '0' <= c <= '9'
  }

  /** The length of the run of digits at the start of s (what a greedy `\d+` consumes). */
  function DigitRun(s: string): (k: nat)
    ensures k <= |s|
    ensures forall i :: 0 <= i < k ==> IsDigit(s[i])
    ensures k == |s| || !IsDigit(s[k])
  {
    if s != [] && IsDigit(s[0]) then 1 + DigitRun(s[1..]) else 0
  }

  /** `int(digits)` for a string of ASCII digits. */
  function DigitsValue(s: string): nat
  {
    if s == [] then 0 else 10 * DigitsValue(s[..|s| - 1]) + (s[|s| - 1] as int - '0' as int) % 10
  }

  /** The text after `[rate:` is k digits and then `]`. */
  predicate RateShape(rest: string, k: nat)
  {
    0 < k < |rest| && rest[k] == ']' && forall i :: 0 <= i < k ==> IsDigit(rest[i])
  }

  /** The only possible k is the full run of leading digits. */
  lemma RateShapeIsDigitRun(rest: string, k: nat)
    requires RateShape(rest, k)
    ensures k == DigitRun(rest)
  {
    var run := DigitRun(rest);
    assert !IsDigit(rest[k]);
    assert run < |rest| ==> !IsDigit(rest[run]);
  }

  /**
    `re.match(r"\[<tag>:(\d+)\]", line)`, giving group 1 when it matches. The pattern
    matches exactly when some non-empty run of digits after the opening is followed
    by `]`; backtracking `\d+` cannot help, since a shorter run is followed by a digit.
  */
  function CaptureDigits(line: string, tag: string): (r: Option<string>)
    ensures r.Some? <==> Opening(tag) <= line && exists k :: RateShape(line[|Opening(tag)|..], k)
    ensures r.Some? ==> Opening(tag) + r.value + "]" <= line && |r.value| > 0
    ensures r.Some? ==> forall j :: 0 <= j < |r.value| ==> IsDigit(r.value[j])
  {
    var p := Opening(tag);
    if p <= line then
      var rest := line[|p|..];
      var k := DigitRun(rest);
      if 0 < k < |rest| && rest[k] == ']' then
        assert RateShape(rest, k);
        assert line[..|p| + k + 1] == p + rest[..k] + "]";
        Some(rest[..k])
      else
        assert forall j: nat :: RateShape(rest, j) ==> j == k by {
          forall j: nat | RateShape(rest, j) ensures j == k {
            RateShapeIsDigitRun(rest, j);
          }
        }
        None
    else None
  }

  /** No directive pattern matches the line. */
  predicate NoDirective(line: string)
  {
    && Capture(line, "voice").None?
    && CaptureDigits(line, "rate").None?
    && Capture(line, "voice_volume").None?
    && Capture(line, "bgm_volume").None?
    && Capture(line, "sfx_volume").None?
    && Capture(line, "pause").None?
    && Capture(line, "bgm").None?
    && Capture(line, "sfx").None?
  }

  /**
    The `if`/`elif` chain of the renderer's line loop, on a stripped line: the
    patterns are tried in order and the first that matches decides. Names and paths
    are stripped again (`m.group(1).strip()`); volumes and pause lengths are passed
    to the number parser as captured.
  */
  function Classify(line: string): (d: Directive)
    ensures d.Blank? <==> line == []
    ensures d.Narration? ==> d.text == line
  {
    if line == [] then Blank
    else if Capture(line, "voice").Some? then SetVoice(Strip(Capture(line, "voice").value))
    else if CaptureDigits(line, "rate").Some? then SetRate(DigitsValue(CaptureDigits(line, "rate").value))
    else if Capture(line, "voice_volume").Some? then SetVoiceVolume(Capture(line, "voice_volume").value)
    else if Capture(line, "bgm_volume").Some? then SetBgmVolume(Capture(line, "bgm_volume").value)
    else if Capture(line, "sfx_volume").Some? then SetSfxVolume(Capture(line, "sfx_volume").value)
    else if Capture(line, "pause").Some? then PauseFor(Capture(line, "pause").value)
    else if Capture(line, "bgm").Some? then PlayBgm(Strip(Capture(line, "bgm").value))
    else if Capture(line, "sfx").Some? then PlaySfx(Strip(Capture(line, "sfx").value))
    else Narration(line)
  }

  /**
    A non-blank line is narration exactly when none of the eight patterns matches it;
    otherwise the first pattern that matches decides.
  */
  lemma NarrationExactly(line: string)
    ensures Classify(line).Narration? <==> line != [] && NoDirective(line)
  {
  }

  /** The rate pattern rejects `[rate:x]` when x is not a non-empty run of digits. */
  lemma RateValueRejected(x: string, rest: string)
    requires forall j :: 0 <= j < |x| ==> x[j] != ']'
    requires x == [] || exists j :: 0 <= j < |x| && !IsDigit(x[j])
    ensures CaptureDigits(Opening("rate") + x + "]" + rest, "rate").None?
  {
    var line := Opening("rate") + x + "]" + rest;
    var after := line[|Opening("rate")|..];
    assert after == x + "]" + rest;
    assert after[|x|] == ']';
    var k := DigitRun(after);
    if x != [] {
      var j0 :| 0 <= j0 < |x| && !IsDigit(x[j0]);
      assert after[j0] == x[j0];
      assert k <= j0;
      assert after[k] == x[k];
    }
  }

  /**
    A rate value that is not a run of digits (`[rate:fast]`, `[rate:]`, `[rate:12a]`,
    `[rate:1.5]`) matches no directive, so the line is read as narration.
  */
  lemma RateMustBeDigits(x: string, rest: string)
    requires forall j :: 0 <= j < |x| ==> x[j] != ']'
    requires x == [] || exists j :: 0 <= j < |x| && !IsDigit(x[j])
    ensures Classify(Opening("rate") + x + "]" + rest) == Narration(Opening("rate") + x + "]" + rest)
  {
    var line := Opening("rate") + x + "]" + rest;
    RateValueRejected(x, rest);
    assert line[1] == 'r';
    Mismatch("voice", line, 1);
    Mismatch("voice_volume", line, 1);
    Mismatch("bgm_volume", line, 1);
    Mismatch("sfx_volume", line, 1);
    Mismatch("pause", line, 1);
    Mismatch("bgm", line, 1);
    Mismatch("sfx", line, 1);
    NarrationExactly(line);
  }

  /** A line with no whitespace at either end is left as it is by `strip()`. */
  lemma StripKeepsClean(s: string)
    requires s != [] && !IsSpace(s[0]) && !IsSpace(s[|s| - 1])
    ensures Strip(s) == s
  {
    assert TrimStart(s) == s;
  }

  /** When w holds no `]` and no line feed, the lazy group captures exactly w from `w]...`. */
  lemma {:induction false} UpToBracketOf(w: string, rest: string)
    requires forall j :: 0 <= j < |w| ==> w[j] != ']' && w[j] != '\n'
    ensures UpToBracket(w + "]" + rest) == Some(w)
  {
    var s := w + "]" + rest;
    if w != [] {
      assert s[1..] == w[1..] + "]" + rest;
      UpToBracketOf(w[1..], rest);
      assert [w[0]] + w[1..] == w;
    }
  }

  /** `[tag:w]` followed by anything captures w, when w holds no `]` and no line feed. */
  lemma CaptureOf(tag: string, w: string, rest: string)
    requires forall j :: 0 <= j < |w| ==> w[j] != ']' && w[j] != '\n'
    ensures Capture(Opening(tag) + w + "]" + rest, tag) == Some(w)
  {
    var line := Opening(tag) + w + "]" + rest;
    assert Opening(tag) <= line;
    assert line[|Opening(tag)|..] == w + "]" + rest;
    UpToBracketOf(w, rest);
  }

  /** A line that differs from `[tag:` at some position matches neither pattern for that tag. */
  lemma Mismatch(tag: string, line: string, i: nat)
    requires i < |Opening(tag)| && i < |line| && Opening(tag)[i] != line[i]
    ensures Capture(line, tag).None? && CaptureDigits(line, tag).None?
  {
    assert !(Opening(tag) <= line);
  }

  /** A line that does not start with `[` matches no directive and is read as narration. */
  lemma UnbracketedIsNarration(line: string)
    requires line != [] && line[0] != '['
    ensures NoDirective(line) && Classify(line) == Narration(line)
  {
    Mismatch("voice", line, 0);
    Mismatch("rate", line, 0);
    Mismatch("voice_volume", line, 0);
    Mismatch("bgm_volume", line, 0);
    Mismatch("sfx_volume", line, 0);
    Mismatch("pause", line, 0);
    Mismatch("bgm", line, 0);
    Mismatch("sfx", line, 0);
  }
}
