/** One MML command: the per-channel interpreter state, the argument parsers
    `parseMmlCommand` relies on, and `parseMmlCommand` itself as a function
    from a channel to the outcome of interpreting the next command. */
module MmlCommand {
  import opened Ints
  import opened Wrappers
  import opened Rational
  import opened MmlText
  import opened MmlLength

  // ---------------------------------------------------------------- state

  /** `MmlState`. Float fields are reals. */
  datatype MmlState = MmlState(
    tempo: real,
    initialTempo: real,
    musicBeat: Rational,
    transposition: int,
    octaveIndex: int,
    defaultLength: Rational,
    baseStrength: int,
    lengthSubTotal: Rational,
    unsendRest: real)

  /** `MmlInfo`: the text of one channel (`|text|` is `mmlStrLength`), its
      cursor `nextMmlCharIndex`, the repeat point and the state. */
  datatype Channel = Channel(
    isAlive: bool,
    text: string,
    cursor: nat,
    repeatStart: int,
    nowPlaying: bool,
    readyToPlay: bool,
    state: MmlState)

  /** Number of entries of the frequency table; the last one is the rest. */
  const TableSize := 89
  const RestIndex := 88

  /** What every command keeps: the key signature the transposition table
      has a row for, an octave index some `O` command can produce or reach
      by `<` and `>`, and a base strength `checkBaseStrength` can return. */
  predicate ValidState(st: MmlState)
  {
    -7 <= st.transposition <= 7
    && -9 <= st.octaveIndex <= 87
    && 0 <= st.baseStrength <= 128
  }

  /** `initMmlState`. */
  function InitialState(): (st: MmlState)
    ensures ValidState(st)
    ensures st.octaveIndex == OctaveIndex(4)
    ensures st.initialTempo < 0.0
  {
    MmlState(120.0, -1.0, Rational(4, 4), 0, 39, Rational(1, 4), 90, Rational(0, 1), 0.0)
  }

  /** `initMML`: a live channel at the start of its text, no repeat point,
      not yet playing. */
  function InitChannel(text: string): (ch: Channel)
    ensures ValidState(ch.state) && ch.isAlive && ch.cursor == 0 && ch.repeatStart < 0
  {
    Channel(true, text, 0, -1, false, false, InitialState())
  }

  // ---------------------------------------------------------------- pitch

  /** `gMusicalTranspositionOffset`: for each key from 7 flats to 7 sharps,
      the semitone adjustment of the notes A to G. */
  const KeyTable: seq<seq<int>> := [
    [-1, -1, -1, -1, -1, -1, -1],
    [-1, -1, -1, -1, -1,  0, -1],
    [-1, -1,  0, -1, -1,  0, -1],
    [-1, -1,  0, -1, -1,  0,  0],
    [-1, -1,  0,  0, -1,  0,  0],
    [ 0, -1,  0,  0, -1,  0,  0],
    [ 0, -1,  0,  0,  0,  0,  0],
    [ 0,  0,  0,  0,  0,  0,  0],
    [ 0,  0,  0,  0,  0,  1,  0],
    [ 0,  0,  1,  0,  0,  1,  0],
    [ 0,  0,  1,  0,  0,  1,  1],
    [ 0,  0,  1,  1,  0,  1,  1],
    [ 1,  0,  1,  1,  0,  1,  1],
    [ 1,  0,  1,  1,  1,  1,  1],
    [ 1,  1,  1,  1,  1,  1,  1]]

  /** Column of a note letter in the key table, A first. */
  function NoteColumn(c: char): nat
    requires IsNoteCommand(c)
  {
    if c == 'A' || c == 'a' then 0
    else if c == 'B' || c == 'b' then 1
    else if c == 'C' || c == 'c' then 2
    else if c == 'D' || c == 'd' then 3
    else if c == 'E' || c == 'e' then 4
    else if c == 'F' || c == 'f' then 5
    else 6
  }

  /** Semitones of a natural note above C. */
  function NaturalOffset(c: char): int
    requires IsNoteCommand(c)
  {
    [9, 11, 0, 2, 4, 5, 7][NoteColumn(c)]
  }

  /** `getNoteOffset`: the natural semitone moved by the key signature;
      -1 for a character that is not a note letter. */
  function GetNoteOffset(c: char, t: int): (r: int)
    requires -7 <= t <= 7
    ensures IsNoteCommand(c) ==> r - NaturalOffset(c) in {-1, 0, 1}
    ensures IsNoteCommand(c) && t == 0 ==> r == NaturalOffset(c)
    ensures !IsNoteCommand(c) ==> r == -1
  {
    if IsNoteCommand(c) then NaturalOffset(c) + KeyRow(t)[NoteColumn(c)] else -1
  }

  /** Row of the key table for a transposition. */
  function KeyRow(t: int): (row: seq<int>)
    requires -7 <= t <= 7
    ensures |row| == 7
  {
    KeyTable[7 + t]
  }

  function Flag(x: int): nat { if x != 0 then 1 else 0 }

  /** Number of notes a key signature alters. */
  function Altered(row: seq<int>): nat
    requires |row| == 7
  {
    Flag(row[0]) + Flag(row[1]) + Flag(row[2]) + Flag(row[3]) + Flag(row[4]) + Flag(row[5]) + Flag(row[6])
  }

  /** A key with t sharps or flats alters exactly |t| notes. */
  lemma KeySignatureCount(t: int)
    requires -7 <= t <= 7
    ensures Altered(KeyRow(t)) == Abs(t)
  {
    if t == -7 {} else if t == -6 {} else if t == -5 {} else if t == -4 {}
    else if t == -3 {} else if t == -2 {} else if t == -1 {} else if t == 0 {}
    else if t == 1 {} else if t == 2 {} else if t == 3 {} else if t == 4 {}
    else if t == 5 {} else if t == 6 {} else {}
  }

  /** Sharps raise and flats lower by one semitone, and each key adds one
      accidental to the previous one. */
  lemma KeySignatures(t: int)
    requires -7 <= t <= 7
    ensures forall k :: 0 <= k < 7 ==> if t >= 0 then 0 <= KeyRow(t)[k] <= 1 else -1 <= KeyRow(t)[k] <= 0
    ensures t < 7 ==> forall k :: 0 <= k < 7 ==> KeyRow(t)[k] <= KeyRow(t + 1)[k]
  {
    if t == -7 {} else if t == -6 {} else if t == -5 {} else if t == -4 {}
    else if t == -3 {} else if t == -2 {} else if t == -1 {} else if t == 0 {}
    else if t == 1 {} else if t == 2 {} else if t == 3 {} else if t == 4 {}
    else if t == 5 {} else if t == 6 {} else {}
  }

  // ---------------------------------------------------------------- arguments

  /** `checkMusicalTransposition`: '+' or '-' and an integer of at most 7,
      or '=' for no transposition. */
  function TranspositionAt(s: string, i: nat): (r: Parsed<int>)
    ensures !r.Trap?
    ensures r.Ok? ==> i < r.next && -7 <= r.value <= 7
    ensures r.Fail? <==>
      var j := SkipWs(s, i);
      var c := At(s, j);
      c != '=' && ((c != '+' && c != '-') || ReadInteger(s, SkipWs(s, j + 1)).1 > 7)
  {
    var j := SkipWs(s, i);
    var c := At(s, j);
    if c == '=' then Ok(j + 1, 0)
    else if c == '+' || c == '-' then
      var (k, n) := ReadInteger(s, SkipWs(s, j + 1));
      var v: int := n;
      if n > 7 then Fail else Ok(k, if c == '+' then v else -v)
    else Fail
  }

  /** `checkBaseStrength`: an optional ':' and an integer; values above 128
      become 127. */
  function BaseStrengthAt(s: string, i: nat): (r: (nat, int))
    ensures i <= r.0
    ensures 0 <= r.1 <= 128
  {
    var j := SkipWs(s, i);
    var k := if At(s, j) == ':' then SkipWs(s, j + 1) else j;
    var (l, n) := ReadInteger(s, k);
    (l, if n > 128 then 127 else n)
  }

  /** `checkOctaveCommand`'s clamp: octave numbers above 8 count as 8. */
  function OctaveIndex(n: nat): (o: int)
    ensures -9 <= o <= 87 && (o + 9) % 12 == 0
    ensures n <= 8 ==> o + 9 == 12 * n
    ensures n > 8 ==> o == 87
  {
    (if n > 8 then 8 else n) * 12 - 9
  }

  /** `checkOctaveCommand`. */
  function OctaveAt(s: string, i: nat): (r: (nat, int))
    ensures i <= r.0
  {
    var (j, n) := ReadInteger(s, SkipWs(s, i));
    (j, OctaveIndex(n))
  }

  /** `checkRational`: an integer, '/', an integer, both narrowed to int16;
      None when there is no '/'. */
  function RationalAt(s: string, i: nat): (r: Option<(nat, Rational)>)
    ensures r.Some? ==> i < r.value.0
  {
    var (j, n) := ReadInteger(s, i);
    var k := SkipWs(s, j);
    if At(s, k) != '/' then None
    else
      var (l, d) := ReadInteger(s, SkipWs(s, k + 1));
      Some((l, Rational(ToInt16(n), ToInt16(d))))
  }

  /** `getRationalValue`; the source's NaN for a zero denominator is 0 here. */
  function RationalValue(r: Rational): (v: real)
    ensures r.den != 0 ==> v * r.den as real == r.num as real
    ensures r.den == 0 ==> v == 0.0
  {
    if r.den == 0 then 0.0 else Value(r)
  }

  /** `checkTempoValue`: a rational if one is there, else a number read from
      the same place. */
  function TempoAt(s: string, i: nat): (r: (nat, real))
    ensures i <= r.0
  {
    var j := SkipWs(s, i);
    var q := RationalAt(s, j);
    if q.None? then ReadNumber(s, j) else (q.value.0, RationalValue(q.value.1))
  }

  /** `checkNoteStrength`: '+n' or '-n' relative to the base, a plain
      integer, or nothing; then an optional accent '\'' adding 20. */
  function NoteStrengthAt(s: string, i: nat, base: int): (r: (nat, int))
    ensures i <= r.0
  {
    var j := SkipWs(s, i);
    var c := At(s, j);
    var (k, v) :=
      if c == '+' then (var (k, d) := ReadInteger(s, j + 1); (k, base + d))
      else if c == '-' then (var (k, d) := ReadInteger(s, j + 1); (k, base - d))
      else if IsDigit(c) then ReadInteger(s, j)
      else (j, base);
    var l := SkipWs(s, k);
    if At(s, l) == '\'' then (l + 1, v + 20) else (l, v)
  }

  /** The sign loop of `checkNoteCommand`: the end of a run of c's, each
      followed by optional white space, and the length of the run. */
  function Accidentals(s: string, i: nat, c: char): (r: (nat, nat))
    requires c != '\0'
    ensures i <= r.0
    ensures At(s, r.0) != c
    decreases |s| - i
  {
    if At(s, i) == c then
      var r := Accidentals(s, SkipWs(s, i + 1), c);
      (r.0, r.1 + 1)
    else (i, 0)
  }

  /** The source's loop for the signs. */
  method CountAccidentals(s: string, start: nat, c: char) returns (i: nat, n: nat)
    requires c != '\0'
    ensures (i, n) == Accidentals(s, start, c)
  {
    i, n := start, 0;
    while At(s, i) == c
      invariant Accidentals(s, i, c).0 == Accidentals(s, start, c).0
      invariant Accidentals(s, i, c).1 + n == Accidentals(s, start, c).1
      decreases |s| - i
    {
      n := n + 1;
      i := SkipWs(s, i + 1);
    }
  }

  /** Occurrences of c in s[i..j]. */
  function Occurrences(s: string, i: nat, j: nat, c: char): nat
    requires i <= j <= |s|
    decreases j - i
  {
    if i == j then 0 else (if s[i] == c then 1 else 0) + Occurrences(s, i + 1, j, c)
  }

  /** A sign run holds only the sign and white space, and its count is the
      number of signs in it. */
  lemma {:induction false} AccidentalsCount(s: string, i: nat, c: char)
    requires c != '\0' && !IsWhiteSpace(c) && i <= |s|
    ensures Accidentals(s, i, c).0 <= |s|
    ensures forall k :: i <= k < Accidentals(s, i, c).0 ==> s[k] == c || IsWhiteSpace(s[k])
    ensures Accidentals(s, i, c).1 == Occurrences(s, i, Accidentals(s, i, c).0, c)
    decreases |s| - i
  {
    if At(s, i) == c {
      var j := SkipWs(s, i + 1);
      AccidentalsCount(s, j, c);
      SkipWsSkipsSpaces(s, i + 1);
      var e := Accidentals(s, j, c).0;
      WhiteSpaceOccurrences(s, i + 1, j, e, c);
    }
  }

  /** White space adds no occurrences of a non-space character. */
  lemma {:induction false} WhiteSpaceOccurrences(s: string, i: nat, j: nat, e: nat, c: char)
    requires i <= j <= e <= |s| && !IsWhiteSpace(c)
    requires forall k :: i <= k < j ==> IsWhiteSpace(s[k])
    ensures Occurrences(s, i, e, c) == Occurrences(s, j, e, c)
    decreases j - i
  {
    if i < j {
      WhiteSpaceOccurrences(s, i + 1, j, e, c);
    }
  }

  /** What `checkNoteCommand` hands back: the sign count (negative for
      flats), the natural flag, the length, the ring scale and the strength. */
  datatype NoteArgs = NoteArgs(shift: int, natural: bool, length: Rational, ring: real, strength: int)

  /** The signs or '=' after a note: where its length starts, the sign
      count and whether the note is natural. */
  function Signs(s: string, j: nat): (r: (nat, int, bool))
    ensures j <= r.0
    ensures r.2 ==> r.1 == 0
  {
    var c := At(s, j);
    if c == '+' then (Accidentals(s, j, '+').0, Accidentals(s, j, '+').1, false)
    else if c == '-' then (Accidentals(s, j, '-').0, -(Accidentals(s, j, '-').1 as int), false)
    else if c == '=' then (j + 1, 0, true)
    else (j, 0, false)
  }

  /** The optional '*' ring scale of a note; 1 without one. */
  function RingAt(s: string, i: nat): (r: (nat, real))
    ensures i <= r.0
  {
    var l := SkipWs(s, i);
    if At(s, l) == '*' then ReadNumber(s, SkipWs(s, l + 1)) else (l, 1.0)
  }

  /** The optional ':' strength or accent of a note; the base strength
      without one. */
  function StrengthSuffix(s: string, i: nat, base: int): (r: (nat, int))
    ensures i <= r.0
  {
    var p := SkipWs(s, i);
    if At(s, p) == ':' then NoteStrengthAt(s, SkipWs(s, p + 1), base)
    else if At(s, p) == '\'' then (p + 1, base + 20)
    else (p, base)
  }

  /** `checkNoteCommand`: signs or '=', a length, a ring scale and a
      strength. Only the length can fail. */
  function NoteArgsAt(s: string, i: nat, default: Rational, base: int): (r: Parsed<NoteArgs>)
    ensures r.Ok? ==> i <= r.next
    ensures r.Fail? <==> NoteLength(s, Signs(s, SkipWs(s, i)).0, default).Fail?
    ensures r.Trap? <==> NoteLength(s, Signs(s, SkipWs(s, i)).0, default).Trap?
  {
    var sg := Signs(s, SkipWs(s, i));
    var len := NoteLength(s, sg.0, default);
    if len.Fail? then Fail
    else if len.Trap? then Trap
    else
      var ring := RingAt(s, len.next);
      var strength := StrengthSuffix(s, ring.0, base);
      Ok(strength.0, NoteArgs(sg.1, sg.2, len.value, ring.1, strength.1))
  }

  /** The octave shift '^' or 'v' right after a note letter. */
  function OctaveShift(s: string, j: nat): (r: (nat, int))
    ensures r.0 == j || r.0 == j + 1
  {
    var c := At(s, j);
    if c == '^' then (j + 1, 12)
    else if c == 'v' || c == 'V' then (j + 1, -12)
    else (j, 0)
  }

  // ---------------------------------------------------------------- outputs

  /** The outputs of `parseMmlCommand` besides the channel. */
  datatype Output = Output(isTone: bool, freq: real, duration: int16, ring: real, volume: uint8)

  /** The outputs of a command that plays nothing. */
  const Silent := Output(false, -1.0, 0, 0.0, 0)

  /** `getRationalValue(length)*4*60/tempo*1000` stored in an int16: the
      milliseconds of a length in whole notes at a tempo in quarter notes per
      minute. A zero denominator or tempo (NaN or infinity in the source)
      gives 0. */
  function DurationOf(length: Rational, tempo: real): (ms: int16)
    ensures length.den == 0 || tempo == 0.0 ==> ms == 0
    ensures length.num == 0 ==> ms == 0
  {
    if length.den == 0 || tempo == 0.0 then 0
    else ToInt16(TruncReal(Value(length) * 4.0 * 60.0 / tempo * 1000.0))
  }

  /** `(uint8_t)(strength/127.0*255)`. */
  function VolumeOf(strength: int): (v: uint8)
    ensures 0 <= strength <= 127 ==> v as int * 127 <= strength * 255 < (v as int + 1) * 127
  {
    ToUint8(TruncReal(strength as real / 127.0 * 255.0))
  }

  /** Over 0..127 the volume is the strength scaled to 0..255, rounded
      down. */
  lemma VolumeOfScaled(strength: int)
    requires 0 <= strength <= 127
    ensures VolumeOf(strength) as int == strength * 255 / 127
  {
    var x := strength as real / 127.0 * 255.0;
    assert x == (strength * 255) as real / 127.0;
    var q := strength * 255 / 127;
    assert q * 127 <= strength * 255 < q * 127 + 127;
    assert q as real <= x < q as real + 1.0;
  }

  /** Volumes grow with the strength over 0..127, from silence to full. */
  lemma VolumeScale(a: int, b: int)
    requires 0 <= a <= b <= 127
    ensures VolumeOf(0) == 0 && VolumeOf(127) == 255
    ensures VolumeOf(a) <= VolumeOf(b)
  {
    var x, y := a as real / 127.0 * 255.0, b as real / 127.0 * 255.0;
    assert 0.0 <= x <= y <= 255.0;
    assert TruncReal(x) <= TruncReal(y);
  }

  /** A length of x whole notes at tempo t lasts x · 240000 / t ms,
      truncated and wrapped to 16 bits; when that fits an int16 it is
      the time truncated to a whole millisecond. */
  lemma DurationMeaning(length: Rational, tempo: real)
    requires length.den != 0 && tempo != 0.0
    ensures DurationOf(length, tempo) == ToInt16(TruncReal(Value(length) * 240000.0 / tempo))
    ensures var ms := Value(length) * 240000.0 / tempo;
      0.0 <= ms < 32768.0 ==> DurationOf(length, tempo) as real <= ms < DurationOf(length, tempo) as real + 1.0
  {
    var x := Value(length);
    assert x * 4.0 * 60.0 == x * 240.0;
    assert x * 240.0 / tempo * 1000.0 == x * 240000.0 / tempo;
  }

  /** A quarter note lasts 60000 / t ms at tempo t, truncated; at tempo
      120 that is 500 ms. */
  lemma QuarterDuration(tempo: real)
    requires tempo >= 2.0
    ensures DurationOf(Rational(1, 4), tempo) as real <= 60000.0 / tempo < DurationOf(Rational(1, 4), tempo) as real + 1.0
    ensures tempo == 120.0 ==> DurationOf(Rational(1, 4), tempo) == 500
  {
    DurationMeaning(Rational(1, 4), tempo);
    assert Value(Rational(1, 4)) == 0.25;
    QuotientAtMost(60000.0, tempo, 30000.0);
  }

  /** a / t <= c for 0 <= a <= c · t and t > 0. */
  lemma QuotientAtMost(a: real, t: real, c: real)
    requires 0.0 <= a && 0.0 < t && a <= c * t
    ensures 0.0 <= a / t <= c
  {
    var q := a / t;
    assert q * t == a;
    assert (c - q) * t == c * t - a;
  }

  // ---------------------------------------------------------------- commands

  /** How much of the source's behaviour to keep: as written, or with the
      two defects of the corrected dialect fixed (see the findings). */
  datatype Dialect = AsWritten | Corrected

  /** What `parseMmlCommand` leaves behind. */
  datatype Outcome =
      /** At the end of the text: true with "no command", nothing else written. */
    | Blank
      /** True: the new channel and the outputs. */
    | Done(ch: Channel, out: Output, hasCommand: bool)
      /** False, with whatever the command wrote to the channel before failing. */
    | Failed(ch: Channel)
      /** A division by zero in a rational reduction. */
    | Trapped

  /** A tempo command's effect on the state: the first tempo ever set also
      becomes the initial tempo. */
  function SetTempo(st: MmlState, v: real): MmlState
  {
    st.(initialTempo := if st.initialTempo < 0.0 then v else st.initialTempo, tempo := v)
  }

  /** The initial tempo, defaulting to 120 when none was set yet. */
  function KnownInitial(st: MmlState): real
  {
    if st.initialTempo < 0.0 then 120.0 else st.initialTempo
  }

  /** Float division; a zero divisor (infinity in the source) gives 0. */
  function Quot(a: real, b: real): (q: real)
    ensures b != 0.0 ==> q * b == a
    ensures b == 0.0 ==> q == 0.0
  {
    if b == 0.0 then 0.0 else a / b
  }

  /** `@M`: '=' back to the initial tempo, '*' or '/' by a scale, or a new
      tempo. The argument starts at k. */
  function TempoCommand(st: MmlState, s: string, k: nat): (r: (nat, MmlState))
    ensures k <= r.0
    ensures r.1.(tempo := st.tempo, initialTempo := st.initialTempo) == st
  {
    var c := At(s, k);
    if c == '=' then
      (SkipWs(s, k + 1), st.(initialTempo := KnownInitial(st), tempo := KnownInitial(st)))
    else if c == '*' then
      var (j, v) := TempoAt(s, k + 1);
      (j, st.(initialTempo := KnownInitial(st), tempo := st.tempo * v))
    else if c == '/' then
      var (j, v) := TempoAt(s, k + 1);
      (j, st.(initialTempo := KnownInitial(st), tempo := Quot(st.tempo, v)))
    else
      var (j, v) := TempoAt(s, k);
      (j, SetTempo(st, v))
  }

  /** `@T`: numerator '/' denominator, the denominator 4 or 8. */
  function BeatAt(s: string, i: nat): (r: Option<(nat, Rational)>)
    ensures r.Some? ==> i <= r.value.0 && r.value.1.den in {4, 8}
  {
    var (k, n) := ReadInteger(s, SkipWs(s, i));
    var l := SkipWs(s, k);
    if At(s, l) != '/' then None
    else
      var (m, d) := ReadInteger(s, SkipWs(s, l + 1));
      if d != 4 && d != 8 then None else Some((m, Rational(ToInt16(n), d)))
  }

  /** What a command leaves alone: the text and the playing flags. */
  predicate Frames(ch: Channel, o: Outcome)
  {
    (o.Done? || o.Failed?) ==>
      o.ch.text == ch.text && o.ch.isAlive == ch.isAlive
      && o.ch.nowPlaying == ch.nowPlaying && o.ch.readyToPlay == ch.readyToPlay
  }

  /** A command keeps the frame and the state invariant. */
  predicate Keeps(ch: Channel, o: Outcome)
  {
    Frames(ch, o) && ((o.Done? || o.Failed?) && ValidState(ch.state) ==> ValidState(o.ch.state))
  }

  /** A command starting at i: a failure leaves the channel as it was, a
      success moves the cursor past i and leaves the repeat point. */
  predicate Moves(ch: Channel, i: nat, o: Outcome)
  {
    !o.Blank?
    && (o.Failed? ==> o.ch == ch)
    && (o.Done? ==> o.hasCommand && i < o.ch.cursor && o.ch.repeatStart == ch.repeatStart)
  }

  /** '%': the rest of the text is a comment. */
  function Comment(ch: Channel, i: nat): (o: Outcome)
    requires i < |ch.text|
    ensures Keeps(ch, o) && Moves(ch, i, o) && o.Done? && o.out == Silent
  {
    Done(ch.(cursor := |ch.text|), Silent, true)
  }

  /** '&': a tie, ignored. */
  function Tie(ch: Channel, i: nat): (o: Outcome)
    ensures Keeps(ch, o) && Moves(ch, i, o) && o.Done? && o.out == Silent
  {
    Done(ch.(cursor := i + 1), Silent, true)
  }

  /** 'O': the octave of an octave number. */
  function OctaveCommand(ch: Channel, i: nat): (o: Outcome)
    ensures Keeps(ch, o) && Moves(ch, i, o) && o.Done? && o.out == Silent
  {
    var (j, octave) := OctaveAt(ch.text, i + 1);
    Done(ch.(cursor := j, state := ch.state.(octaveIndex := octave)), Silent, true)
  }

  /** '<' and '>': one octave up or down. */
  function OctaveStep(ch: Channel, i: nat, up: bool): (o: Outcome)
    ensures Keeps(ch, o) && Moves(ch, i, o) && o.Done? && o.out == Silent
  {
    var o := ch.state.octaveIndex;
    Done(ch.(cursor := i + 1, state := ch.state.(octaveIndex := if up then OctaveUp(o) else OctaveDown(o))), Silent, true)
  }

  /** 'L': the default length. */
  function DefaultLengthCommand(ch: Channel, i: nat): (o: Outcome)
    ensures Keeps(ch, o) && Moves(ch, i, o) && (o.Done? ==> o.out == Silent)
  {
    var r := NoteLength(ch.text, i + 1, ch.state.defaultLength);
    if r.Fail? then Failed(ch)
    else if r.Trap? then Trapped
    else Done(ch.(cursor := r.next, state := ch.state.(defaultLength := r.value)), Silent, true)
  }

  /** 'V' and '@V': the base strength. */
  function StrengthCommand(ch: Channel, i: nat): (o: Outcome)
    ensures Keeps(ch, o) && Moves(ch, i, o) && o.Done? && o.out == Silent
  {
    var (j, v) := BaseStrengthAt(ch.text, i + 1);
    Done(ch.(cursor := j, state := ch.state.(baseStrength := v)), Silent, true)
  }

  /** 'N': a tone of the frequency given in hertz, at the default length and
      the base strength. */
  function FrequencyCommand(ch: Channel, i: nat): (o: Outcome)
    ensures Keeps(ch, o) && Moves(ch, i, o) && o.Done? && o.out.isTone
  {
    var st := ch.state;
    var (j, f) := ReadNumber(ch.text, i + 1);
    Done(ch.(cursor := j), Output(true, f, DurationOf(st.defaultLength, st.tempo), 1.0, VolumeOf(st.baseStrength)), true)
  }

  /** 'T': a new tempo. */
  function TempoSet(ch: Channel, i: nat): (o: Outcome)
    ensures Keeps(ch, o) && Moves(ch, i, o) && o.Done? && o.out == Silent
  {
    var (j, v) := TempoAt(ch.text, SkipWs(ch.text, i + 1));
    Done(ch.(cursor := j, state := SetTempo(ch.state, v)), Silent, true)
  }

  /** '$': the repeat point, recorded only when repeats are supported. */
  function RepeatCommand(ch: Channel, i: nat, supportRepeat: bool): (o: Outcome)
    ensures Keeps(ch, o) && o.Done? && o.out == Silent && o.hasCommand && o.ch.cursor == i + 1
    ensures o.ch.repeatStart == if supportRepeat then i + 1 else ch.repeatStart
  {
    Done(ch.(cursor := i + 1, repeatStart := if supportRepeat then i + 1 else ch.repeatStart), Silent, true)
  }

  /** '@K': the key signature. */
  function TranspositionCommand(ch: Channel, j: nat): (o: Outcome)
    ensures Keeps(ch, o) && Moves(ch, j, o) && (o.Done? ==> o.out == Silent)
  {
    var t := TranspositionAt(ch.text, j + 1);
    if t.Ok? then Done(ch.(cursor := t.next, state := ch.state.(transposition := t.value)), Silent, true)
    else Failed(ch)
  }

  /** '@T': the time signature. */
  function BeatCommand(ch: Channel, j: nat): (o: Outcome)
    ensures Keeps(ch, o) && Moves(ch, j, o) && (o.Done? ==> o.out == Silent)
  {
    var b := BeatAt(ch.text, j + 1);
    if b.Some? then Done(ch.(cursor := b.value.0, state := ch.state.(musicBeat := b.value.1)), Silent, true)
    else Failed(ch)
  }

  /** '@M': a tempo change. */
  function TempoChange(ch: Channel, j: nat): (o: Outcome)
    ensures Keeps(ch, o) && Moves(ch, j, o) && o.Done? && o.out == Silent
  {
    var (k, st) := TempoCommand(ch.state, ch.text, SkipWs(ch.text, j + 1));
    Done(ch.(cursor := k, state := st), Silent, true)
  }

  /** The '@' commands; j is the index after '@' and white space. Any other
      letter is no command: the cursor stops on it. */
  function AtCommand(ch: Channel, j: nat): (o: Outcome)
    ensures Keeps(ch, o) && !o.Blank? && (o.Failed? ==> o.ch == ch)
    ensures o.Done? ==> o.out == Silent && o.hasCommand && j <= o.ch.cursor && o.ch.repeatStart == ch.repeatStart
  {
    var c := At(ch.text, j);
    if c == 'K' || c == 'k' then TranspositionCommand(ch, j)
    else if c == 'T' || c == 't' then BeatCommand(ch, j)
    else if c == 'M' || c == 'm' then TempoChange(ch, j)
    else if c == 'V' || c == 'v' then StrengthCommand(ch, j)
    else Done(ch.(cursor := j), Silent, true)
  }

  /** The commands other than notes, rests and '@', at s[i]. '|' and '!'
      are no commands: the cursor stays on them. */
  function PlainCommand(ch: Channel, i: nat, supportRepeat: bool): (o: Outcome)
    requires i < |ch.text| && IsMmlCommand(ch.text[i])
    requires !IsNoteCommand(ch.text[i]) && ch.text[i] !in {'R', 'r', '@'}
    ensures Keeps(ch, o) && !o.Blank? && (o.Failed? ==> o.ch == ch)
    ensures o.Done? ==> o.hasCommand && i <= o.ch.cursor
    ensures o.Done? && !supportRepeat ==> o.ch.repeatStart == ch.repeatStart
    ensures o.Done? && o.ch.cursor == i ==> o.ch == ch.(cursor := i) && o.out == Silent && ch.text[i] in {'|', '!'}
  {
    var c := ch.text[i];
    if c == '%' then Comment(ch, i)
    else if c == '&' then Tie(ch, i)
    else if c == 'O' || c == 'o' then OctaveCommand(ch, i)
    else if c == '<' || c == '>' then OctaveStep(ch, i, c == '<')
    else if c == 'L' || c == 'l' then DefaultLengthCommand(ch, i)
    else if c == 'V' || c == 'v' then StrengthCommand(ch, i)
    else if c == 'N' || c == 'n' then FrequencyCommand(ch, i)
    else if c == 'T' || c == 't' then TempoSet(ch, i)
    else if c == '$' then RepeatCommand(ch, i, supportRepeat)
    else Done(ch.(cursor := i), Silent, true)
  }

  /** `<`: one octave up, at most index 87. */
  function OctaveUp(o: int): (r: int)
    ensures r <= 87 && r <= o + 12
    ensures o + 12 <= 87 ==> r == o + 12
    ensures o <= 87 ==> o <= r
  {
    if o + 12 > 87 then 87 else o + 12
  }

  /** `>`: one octave down, at least index -9. */
  function OctaveDown(o: int): (r: int)
    ensures -9 <= r && o - 12 <= r
    ensures -9 <= o - 12 ==> r == o - 12
    ensures -9 <= o ==> r <= o
  {
    if o - 12 < -9 then -9 else o - 12
  }

  /** The table index of a note: octave, octave shift, key-adjusted offset
      and signs; a rest has its own entry. */
  function PitchIndex(octave: int, octaveShift: int, offset: int, shift: int): (i: int)
    ensures offset == RestIndex ==> i == RestIndex
    ensures offset != RestIndex ==> i - octave == octaveShift + offset + shift
  {
    if offset != RestIndex then octave + octaveShift + offset + shift else RestIndex
  }

  /** A rest has the same entry whatever the octave and signs; a note one
      octave up has the index 12 entries further. */
  lemma PitchIndexOctave(n: nat, octaveShift: int, offset: int, shift: int)
    requires n < 8
    ensures PitchIndex(OctaveIndex(n), octaveShift, RestIndex, shift) == RestIndex
    ensures offset != RestIndex ==>
      PitchIndex(OctaveIndex(n + 1), octaveShift, offset, shift) == PitchIndex(OctaveIndex(n), octaveShift, offset, shift) + 12
  {
  }

  /** The tail of a note or rest once its arguments are read: the natural
      sign's offset, the length total, the table index and the outputs. */
  function SoundNote(ch: Channel, freq: seq<real>, c: char, offset: int, octaveShift: int,
                     next: nat, a: NoteArgs, dialect: Dialect): (o: Outcome)
    requires |freq| == TableSize
    ensures Keeps(ch, o) && !o.Blank?
    ensures o.Failed? ==> o.ch.cursor == ch.cursor && o.ch.repeatStart == ch.repeatStart
    ensures o.Done? ==> o.hasCommand && o.out.isTone && o.ch.cursor == (if a.natural then SkipWs(ch.text, next) else next)
    ensures o.Done? ==> o.ch.repeatStart == ch.repeatStart
  {
    var st := ch.state;
    var rest := c == 'R' || c == 'r';
    var offset' := if a.natural && !(rest && dialect == Corrected) then GetNoteOffset(c, 0) else offset;
    var total := Add(st.lengthSubTotal, a.length);
    if total.None? then Trapped
    else
      var ch' := ch.(state := st.(lengthSubTotal := total.value));
      var index := PitchIndex(st.octaveIndex, octaveShift, offset', a.shift);
      if index < 0 || TableSize <= index then Failed(ch')
      else
        var next' := if a.natural then SkipWs(ch.text, next) else next;
        Done(ch'.(cursor := next'),
             Output(true, freq[index], DurationOf(a.length, st.tempo), a.ring, VolumeOf(a.strength)), true)
  }

  /** Notes and rests; s[i] is the letter. */
  function NoteCommand(ch: Channel, freq: seq<real>, i: nat, dialect: Dialect): (o: Outcome)
    requires |freq| == TableSize && i < |ch.text|
    requires -7 <= ch.state.transposition <= 7
    ensures Keeps(ch, o) && !o.Blank?
    ensures o.Failed? ==> o.ch.cursor == ch.cursor && o.ch.repeatStart == ch.repeatStart
    ensures o.Done? ==> o.hasCommand && o.out.isTone && i < o.ch.cursor && o.ch.repeatStart == ch.repeatStart
  {
    var s, st := ch.text, ch.state;
    var c := s[i];
    var offset := if c == 'R' || c == 'r' then RestIndex else GetNoteOffset(c, st.transposition);
    if offset < 0 then Failed(ch)
    else
      var (k, octaveShift) := OctaveShift(s, SkipWs(s, i + 1));
      var args := NoteArgsAt(s, k, st.defaultLength, st.baseStrength);
      if args.Fail? then Failed(ch)
      else if args.Trap? then Trapped
      else SoundNote(ch, freq, c, offset, octaveShift, args.next, args.value, dialect)
  }

  /** `parseMmlCommand`: the next command of the channel, with the
      frequency table `gFreqTable` and whether '$' records a repeat point.
      A command never changes the text or the playing flags, keeps the
      state invariant, records no repeat point when repeats are off, and
      either moves the cursor forward or leaves the whole channel as it
      was. */
  function Step(ch: Channel, freq: seq<real>, supportRepeat: bool, dialect: Dialect): (o: Outcome)
    requires |freq| == TableSize
    requires -7 <= ch.state.transposition <= 7
    ensures Keeps(ch, o)
    ensures (o.Done? || o.Failed?) && !supportRepeat ==> o.ch.repeatStart == ch.repeatStart
    ensures o.Failed? ==> o.ch.cursor == ch.cursor
    ensures o.Blank? <==> dialect == AsWritten && SkipWs(ch.text, ch.cursor) >= |ch.text|
    ensures o.Done? && !o.hasCommand ==> o.ch.cursor >= |ch.text| && o.out == Silent
    ensures o.Done? && o.ch.cursor <= ch.cursor ==> o.ch == ch && o.out == Silent
  {
    var s := ch.text;
    var i := SkipWs(s, ch.cursor);
    if i >= |s| then
      if dialect == AsWritten then Blank else Done(ch.(cursor := i), Silent, false)
    else if !IsMmlCommand(s[i]) then Failed(ch)
    else if IsNoteCommand(s[i]) || s[i] == 'R' || s[i] == 'r' then NoteCommand(ch, freq, i, dialect)
    else if s[i] == '@' then AtCommand(ch, SkipWs(s, i + 1))
    else PlainCommand(ch, i, supportRepeat)
  }

  // ---------------------------------------------------------------- properties

  /** The note letter or rest at which a command starts. */
  predicate StartsNote(c: char) { IsNoteCommand(c) || c == 'R' || c == 'r' }

  /** The pitch of a note: the octave, the '^'/'v' shift, the sign count
      and the key-adjusted offset (the natural offset after '=') index the
      frequency table; the note fails exactly when that index leaves the
      table. */
  lemma NotePitch(ch: Channel, freq: seq<real>, c: char, octaveShift: int, next: nat, a: NoteArgs, dialect: Dialect)
    requires |freq| == TableSize && IsNoteCommand(c) && -7 <= ch.state.transposition <= 7
    requires Add(ch.state.lengthSubTotal, a.length).Some?
    ensures
      var st := ch.state;
      var o := SoundNote(ch, freq, c, GetNoteOffset(c, st.transposition), octaveShift, next, a, dialect);
      var index := st.octaveIndex + octaveShift + a.shift + GetNoteOffset(c, if a.natural then 0 else st.transposition);
      (o.Done? <==> 0 <= index < TableSize)
      && (o.Done? ==> o.out == Output(true, freq[index], DurationOf(a.length, st.tempo), a.ring, VolumeOf(a.strength)))
      && (o.Failed? ==> o.ch.state.lengthSubTotal == Add(st.lengthSubTotal, a.length).value)
  {
  }

  /** In the corrected dialect a rest always sounds the rest entry,
      whatever its signs, octave shift or natural sign. */
  lemma RestIsLastEntry(ch: Channel, freq: seq<real>, c: char, octaveShift: int, next: nat, a: NoteArgs)
    requires |freq| == TableSize && c in {'R', 'r'}
    requires Add(ch.state.lengthSubTotal, a.length).Some?
    ensures
      var o := SoundNote(ch, freq, c, RestIndex, octaveShift, next, a, Corrected);
      o.Done? && o.out.freq == freq[RestIndex]
  {
  }

  /** As written, a natural sign turns a rest into a pitched note: "R="
      looks up the offset of 'R' in the key table, which is -1, so it
      sounds the entry a semitone below C of the current octave (entry 38 at
      the default octave) whenever that entry exists. */
  lemma RestNaturalAsWritten(ch: Channel, freq: seq<real>, c: char, octaveShift: int, next: nat, a: NoteArgs)
    requires |freq| == TableSize && c in {'R', 'r'} && a.natural
    requires Add(ch.state.lengthSubTotal, a.length).Some?
    ensures
      var o := SoundNote(ch, freq, c, RestIndex, octaveShift, next, a, AsWritten);
      var index := ch.state.octaveIndex + octaveShift + a.shift - 1;
      (o.Done? <==> 0 <= index < TableSize)
      && (o.Done? ==> index != RestIndex ==> o.out.freq == freq[index])
  {
    assert GetNoteOffset(c, 0) == -1;
  }

  /** '$' records the index just after it as the repeat point, and only
      when repeats are supported. */
  lemma RepeatMark(ch: Channel, freq: seq<real>, supportRepeat: bool, dialect: Dialect)
    requires |freq| == TableSize && -7 <= ch.state.transposition <= 7
    requires At(ch.text, SkipWs(ch.text, ch.cursor)) == '$'
    ensures var i := SkipWs(ch.text, ch.cursor);
      Step(ch, freq, supportRepeat, dialect)
      == Done(ch.(cursor := i + 1, repeatStart := if supportRepeat then i + 1 else ch.repeatStart), Silent, true)
  {
  }

  /** After a first tempo and any scaling, '@M=' brings back that first
      tempo. */
  lemma TempoResetRestoresFirst(st: MmlState, v: real, s: string, k: nat, scale: real, s': string, k': nat)
    requires st.initialTempo < 0.0 && v >= 0.0
    requires At(s, k) == '*' && At(s', k') == '='
    ensures var st1 := SetTempo(st, v);
            var st2 := TempoCommand(st1, s, k).1;
            TempoCommand(st2, s', k').1.tempo == v
  {
  }

  /** `checkBaseStrength` on a digit run, with or without a ':' in front:
      it ends after the digits; a value up to 128 is kept and any larger
      value becomes 127. */
  lemma BaseStrengthClamp(s: string, i: nat)
    requires IsDigit(At(s, i))
    ensures var e := DigitsEnd(s, i);
      var v := Decimal(s, i, e);
      BaseStrengthAt(s, i) == (e, if v <= 128 then v else 127)
      && (0 < i && At(s, i - 1) == ':' ==> BaseStrengthAt(s, i - 1) == (e, if v <= 128 then v else 127))
  {
  }
}
