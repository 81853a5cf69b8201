/** Validation of a whole MML text: `checkMML` interprets every command of a
    private channel, with repeats off, and `t2kCheckMML` guards it against
    a missing or empty string. */
module MmlCheck {
  import opened Wrappers
  import opened MmlText
  import opened MmlCommand

  /** How a run of `checkMML` ends: it returns a boolean, it spins forever
      on a channel that never changes, or a command traps. */
  datatype Verdict = Returns(valid: bool) | Diverges(at: Channel) | Crashes

  /** A channel the loop of `checkMML` cannot leave: its cursor is still
      before the end, so the loop goes on, and interpreting the next
      command gives back the very same channel, so every later round does
      the same. */
  predicate Stuck(ch: Channel, freq: seq<real>, dialect: Dialect)
    requires |freq| == TableSize && -7 <= ch.state.transposition <= 7
  {
    ch.cursor < |ch.text|
    && var o := Step(ch, freq, false, dialect);
       o.Blank? || (o.Done? && o.ch == ch)
  }

  /** The rounds of `checkMML` from channel ch, where `any` says whether a
      command has been seen so far: true at the end only if some command
      was seen, false at the first command that fails. No round records a
      repeat point or touches the text, and a divergence names the channel
      the loop is stuck on. */
  function Run(ch: Channel, freq: seq<real>, any: bool, dialect: Dialect): (v: Verdict)
    requires |freq| == TableSize && ValidState(ch.state)
    ensures v.Diverges? ==> ValidState(v.at.state) && Stuck(v.at, freq, dialect)
    ensures v.Diverges? ==> v.at.text == ch.text && v.at.repeatStart == ch.repeatStart
    ensures ch.cursor >= |ch.text| ==> v == Returns(any)
    decreases |ch.text| - ch.cursor
  {
    if ch.cursor >= |ch.text| then Returns(any)
    else
      var o := Step(ch, freq, false, dialect);
      if o.Blank? then Diverges(ch)
      else if o.Failed? then Returns(false)
      else if o.Trapped? then Crashes
      else if o.ch.cursor <= ch.cursor then Diverges(ch)
      else Run(o.ch, freq, any || o.hasCommand, dialect)
  }

  /** `checkMML`: the loop over the commands of the text, on a fresh
      channel. The source loops forever where the model reports the
      channel it is stuck on. */
  method CheckMml(text: string, freq: seq<real>, dialect: Dialect) returns (v: Verdict)
    requires |text| > 0 && |freq| == TableSize
    ensures v == Run(InitChannel(text), freq, false, dialect)
  {
    var ch := InitChannel(text);
    var any := false;
    while ch.cursor < |ch.text|
      invariant ValidState(ch.state)
      invariant Run(ch, freq, any, dialect) == Run(InitChannel(text), freq, false, dialect)
      decreases |ch.text| - ch.cursor
    {
      var o := Step(ch, freq, false, dialect);
      if o.Blank? || (o.Done? && o.ch.cursor <= ch.cursor) {
        return Diverges(ch);
      } else if o.Failed? {
        return Returns(false);
      } else if o.Trapped? {
        return Crashes;
      }
      any := any || o.hasCommand;
      ch := o.ch;
    }
    return Returns(any);
  }

  /** `t2kCheckMML`: a missing (NULL) or empty string is invalid; otherwise
      the text up to its terminator is checked. */
  method T2kCheckMml(s: Option<string>, freq: seq<real>, dialect: Dialect) returns (v: Verdict)
    requires |freq| == TableSize
    ensures s.None? ==> v == Returns(false)
    ensures s.Some? && StrLen(s.value) == 0 ==> v == Returns(false)
    ensures s.Some? && StrLen(s.value) > 0 ==> v == Run(InitChannel(s.value[..StrLen(s.value)]), freq, false, dialect)
  {
    if s.None? {
      return Returns(false);
    }
    var n := StrLen(s.value);
    if n == 0 {
      return Returns(false);
    }
    v := CheckMml(s.value[..n], freq, dialect);
  }

  // ---------------------------------------------------------------- properties

  /** A run that returns true without having seen a command before has a
      command ahead: the first command is not white space. (A first turn
      without a command reaches the end of the text, where the run returns
      false.) */
  lemma TrueNeedsCommand(ch: Channel, freq: seq<real>, dialect: Dialect)
    requires |freq| == TableSize && ValidState(ch.state)
    requires Run(ch, freq, false, dialect) == Returns(true)
    ensures exists k :: ch.cursor <= k < |ch.text| && !IsWhiteSpace(ch.text[k])
  {
    var i := SkipWs(ch.text, ch.cursor);
    assert i < |ch.text| && !IsWhiteSpace(ch.text[i]);
  }

  lemma {:induction false} SkipWsAllWhite(s: string, i: nat)
    requires i <= |s|
    requires forall k :: i <= k < |s| ==> IsWhiteSpace(s[k])
    ensures SkipWs(s, i) == |s|
    decreases |s| - i
  {
    if i < |s| {
      SkipWsAllWhite(s, i + 1);
    }
  }

  /** A text of nothing but white space: as written, `checkMML` never
      returns, because the blank tail leaves the cursor where it is; in the
      corrected dialect it returns false, since no command was seen. */
  lemma WhiteSpaceText(text: string, freq: seq<real>)
    requires |text| > 0 && |freq| == TableSize
    requires forall k :: 0 <= k < |text| ==> IsWhiteSpace(text[k])
    ensures Run(InitChannel(text), freq, false, AsWritten) == Diverges(InitChannel(text))
    ensures Run(InitChannel(text), freq, false, Corrected) == Returns(false)
  {
    SkipWsAllWhite(text, 0);
    var ch := InitChannel(text);
    assert Step(ch, freq, false, Corrected) == Done(ch.(cursor := |text|), Silent, false);
  }

  /** "O4 ": a valid command followed by white space. As written the run
      is stuck after the octave command, on the blank tail; corrected, the
      text is valid. */
  lemma TrailingSpace(freq: seq<real>)
    requires |freq| == TableSize
    ensures Run(InitChannel("O4 "), freq, false, AsWritten).Diverges?
    ensures Run(InitChannel("O4 "), freq, false, Corrected) == Returns(true)
  {
    var ch := InitChannel("O4 ");
    var s := ch.text;
    assert SkipWs(s, 0) == 0;
    assert DigitsEnd(s, 2) == 2;
    assert DigitsEnd(s, 1) == 2;
    assert Decimal(s, 1, 2) == 4;
    var ch' := ch.(cursor := 2, state := ch.state.(octaveIndex := 39));
    assert OctaveAt(s, 1) == (2, 39);
    assert Step(ch, freq, false, AsWritten) == Done(ch', Silent, true);
    assert Step(ch, freq, false, Corrected) == Done(ch', Silent, true);
    assert SkipWs(s, 2) == 3;
    assert Step(ch', freq, false, AsWritten) == Blank;
    assert Step(ch', freq, false, Corrected) == Done(ch'.(cursor := 3), Silent, false);
  }
}
