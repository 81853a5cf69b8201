/** The MML player: the frequency table, the four channels `gMmlInfo` and
    the scheduler that feeds each channel's commands into the sound core's
    bounded tone queues (`registerMML` when a channel starts, then
    `t2kUpdateMML` on every frame). The scheduler interprets commands in the
    corrected dialect of `MmlCommand.Step`: a blank tail ends the text and a
    rest with a natural sign is silent. As written, the parser returns on a
    blank tail without moving the cursor or setting its tone outputs, so the
    source's scheduler spins there on values it left stale; that is not
    modelled. */
module MmlEngine {
  import opened Ints
  import opened Wrappers
  import opened MmlText
  import opened MmlLength
  import opened MmlCommand
  import opened SoundCore

  /** `kBufferingMSec`. */
  const BufferingMSec := 100

  /** A float of milliseconds passed where an int16 is expected. */
  function Millis(x: real): int16
  {
    ToInt16(TruncReal(x))
  }

  /** The ring scale is clipped at 1; below 1 the part of the note's
      duration that does not ring is left as a pending rest. Nothing but
      the pending rest changes; a command without a tone leaves no pending
      rest, and a tone that rings fully leaves it alone. */
  function AfterRing(st: MmlState, out: Output): (r: MmlState)
    ensures r.(unsendRest := st.unsendRest) == st
    ensures out == Silent ==> r.unsendRest == 0.0
    ensures out.ring >= 1.0 ==> r == st
  {
    var ring := if out.ring > 1.0 then 1.0 else out.ring;
    if ring < 1.0 then st.(unsendRest := out.duration as real * (1.0 - ring)) else st
  }

  /** A command and the playing flags it never changes. */
  predicate SameTrack(a: Channel, b: Channel)
  {
    a.text == b.text && a.isAlive == b.isAlive && a.nowPlaying == b.nowPlaying && a.readyToPlay == b.readyToPlay
  }

  /** What the scheduler makes of one command: the program halts on a
      trap; a command that fails is refused; a tone that finds the queue
      full is rewound; anything else moves on, with the tone's duration if
      it queued one. */
  datatype Parse = Halted | Refused | Rewound | Moved(hasCommand: bool, tone: Option<int16>)

  /** The outcome, the new channel and the tone to queue, if any. */
  datatype Effect = Effect(parse: Parse, ch: Channel, queued: Option<Output>)

  /** What the scheduler makes of the outcome o of a command read from
      channel ch, where `room` says whether the channel's queue has room
      for a tone. When the tone does not fit, the cursor goes back to where
      the command started and the pending rest is cancelled, and nothing is
      queued, so the same command is read again on the next attempt; a tone
      is queued only when there is room. */
  function Deliver(ch: Channel, o: Outcome, room: bool): (e: Effect)
    requires ValidState(ch.state) && Keeps(ch, o) && !o.Blank?
    requires o.Failed? ==> o.ch.cursor == ch.cursor
    requires o.Done? && o.ch.cursor <= ch.cursor ==> o.ch == ch && o.out == Silent
    ensures ValidState(e.ch.state) && SameTrack(e.ch, ch)
    ensures e.queued.Some? <==> e.parse.Moved? && e.parse.tone.Some?
    ensures e.queued.Some? ==> room && e.parse.tone.value == e.queued.value.duration
    ensures e.parse.Rewound? ==> !room && e.ch.cursor == ch.cursor && e.ch.state.unsendRest == -1.0
    ensures e.parse.Halted? ==> e.ch == ch
    ensures e.parse.Refused? ==> e.ch.cursor == ch.cursor
    ensures e.parse.Moved? ==> ch.cursor < e.ch.cursor || e.ch == ch.(state := ch.state.(unsendRest := 0.0))
  {
    if o.Trapped? then Effect(Halted, ch, None)
    else if o.Failed? then Effect(Refused, o.ch, None)
    else DeliverDone(ch, o, room)
  }

  /** `Deliver` for a command that succeeded. */
  function DeliverDone(ch: Channel, o: Outcome, room: bool): (e: Effect)
    requires ValidState(ch.state) && Keeps(ch, o) && o.Done?
    requires o.ch.cursor <= ch.cursor ==> o.ch == ch && o.out == Silent
    ensures ValidState(e.ch.state) && SameTrack(e.ch, ch)
    ensures e.parse.Moved? || e.parse.Rewound?
    ensures e.queued.Some? <==> e.parse.Moved? && e.parse.tone.Some?
    ensures e.queued.Some? ==> room && e.parse.tone.value == e.queued.value.duration
    ensures e.parse.Rewound? ==> !room && e.ch.cursor == ch.cursor && e.ch.state.unsendRest == -1.0
    ensures e.parse.Moved? ==> ch.cursor < e.ch.cursor || e.ch == ch.(state := ch.state.(unsendRest := 0.0))
  {
    var st := AfterRing(o.ch.state, o.out);
    if !o.out.isTone then Effect(Moved(o.hasCommand, None), o.ch.(state := st), None)
    else if !room then Effect(Rewound, o.ch.(cursor := ch.cursor, state := st.(unsendRest := -1.0)), None)
    else Effect(Moved(o.hasCommand, Some(o.out.duration)), o.ch.(state := st), Some(o.out))
  }

  /** One command of a playing channel, as both `registerMML` and
      `t2kUpdateMML` handle it: the corrected dialect has no blank outcome,
      so a command ends in a trap, a failure or a success. */
  function Interpretation(ch: Channel, freq: seq<real>, room: bool): (e: Effect)
    requires |freq| == TableSize && ValidState(ch.state)
    ensures ValidState(e.ch.state) && SameTrack(e.ch, ch)
    ensures e.queued.Some? <==> e.parse.Moved? && e.parse.tone.Some?
    ensures e.queued.Some? ==> room && e.parse.tone.value == e.queued.value.duration
    ensures e.parse.Rewound? ==> !room && e.ch.cursor == ch.cursor && e.ch.state.unsendRest == -1.0
    ensures e.parse.Halted? ==> e.ch == ch
    ensures e.parse.Refused? ==> e.ch.cursor == ch.cursor
    ensures e.parse.Moved? ==> ch.cursor < e.ch.cursor || e.ch == ch.(state := ch.state.(unsendRest := 0.0))
  {
    Deliver(ch, Step(ch, freq, true, Corrected), room)
  }

  /** A command with a tone changes nothing but the cursor and the length
      total. */
  lemma ToneKeepsState(ch: Channel, freq: seq<real>)
    requires |freq| == TableSize && ValidState(ch.state)
    ensures var o := Step(ch, freq, true, Corrected);
      o.Done? && o.out.isTone ==>
        o.ch == ch.(cursor := o.ch.cursor, state := ch.state.(lengthSubTotal := o.ch.state.lengthSubTotal))
  {
  }

  /** The packet `t2kAddTone` makes of a command's tone. */
  function PacketOf(out: Output): ToneInfo
  {
    Packet(out.freq, out.duration, out.volume)
  }

  /** The queues after the tone t, if any, is appended to queue c. */
  function Enqueued(qs: seq<seq<ToneInfo>>, c: nat, t: Option<Output>): (r: seq<seq<ToneInfo>>)
    requires c < |qs|
    ensures |r| == |qs| && qs[c] <= r[c]
    ensures forall k :: 0 <= k < |qs| && k != c ==> r[k] == qs[k]
  {
    qs[c := Queued(qs[c], t)]
  }

  /** Backpressure: a rewound command leaves the channel as it was apart
      from the length total (which the retry adds once more) and the
      cancelled pending rest, so the retry reads the same command. */
  lemma RewindRestores(ch: Channel, freq: seq<real>)
    requires |freq| == TableSize && ValidState(ch.state)
    requires Interpretation(ch, freq, false).parse.Rewound?
    ensures var e := Interpretation(ch, freq, false);
      e.ch == ch.(state := ch.state.(lengthSubTotal := e.ch.state.lengthSubTotal, unsendRest := -1.0))
      && e.queued.None?
      && Interpretation(ch, freq, true).parse.Moved?
  {
    ToneKeepsState(ch, freq);
  }

  /** At the end of its text a channel stops when it has no repeat point
      and otherwise starts again from it. */
  function Resume(ch: Channel): (r: Channel)
    ensures r.text == ch.text && r.state == ch.state && r.repeatStart == ch.repeatStart && r.readyToPlay == ch.readyToPlay
    ensures ch.cursor < |ch.text| ==> r == ch
    ensures r.isAlive <==> ch.isAlive && (ch.cursor < |ch.text| || ch.repeatStart >= 0)
    ensures r.isAlive ==> r.nowPlaying == ch.nowPlaying && r.cursor >= 0
  {
    if ch.cursor < |ch.text| then ch
    else if ch.repeatStart < 0 then ch.(nowPlaying := false, isAlive := false)
    else ch.(cursor := ch.repeatStart as nat)
  }

  /** Once '$' has been read, a channel that reaches the end of its text
      with that repeat point starts again just after the '$'. */
  lemma ResumeAfterMark(ch: Channel, freq: seq<real>, later: Channel)
    requires |freq| == TableSize && ValidState(ch.state)
    requires At(ch.text, SkipWs(ch.text, ch.cursor)) == '$'
    requires later.text == ch.text && later.cursor >= |later.text|
    requires later.repeatStart == Step(ch, freq, true, Corrected).ch.repeatStart
    ensures Resume(later).isAlive == later.isAlive
    ensures 0 < Resume(later).cursor <= |ch.text| && ch.text[Resume(later).cursor - 1] == '$'
    ensures Resume(later).cursor == SkipWs(ch.text, ch.cursor) + 1
  {
    RepeatMark(ch, freq, true, Corrected);
  }

  /** A playing channel at the end of its text stops exactly when it has
      no repeat point. */
  lemma ResumeStops(ch: Channel)
    requires ch.cursor >= |ch.text| && ch.isAlive && ch.nowPlaying
    ensures ch.repeatStart < 0 <==> !Resume(ch).isAlive
    ensures ch.repeatStart < 0 <==> !Resume(ch).nowPlaying
    ensures ch.repeatStart >= 0 ==> Resume(ch).cursor == ch.repeatStart
  {
  }

  lemma PrefixTrans<T>(a: seq<T>, b: seq<T>, c: seq<T>)
    requires a <= b && b <= c
    ensures a <= c
  {
  }

  // ---------------------------------------------------------------- frequency table

  /** s to the m. */
  function Power(s: real, m: nat): real
  {
    if m == 0 then 1.0 else Power(s, m - 1) * s
  }

  /** The frequency of the A that starts octave k: 27.5 Hz for A0, then
      55 * 2^(k-1) Hz. */
  function OctaveBase(k: nat): real
  {
    if k == 0 then 27.5 else 55.0 * Pow2(k - 1) as real
  }

  /** The entry m semitones above the A of octave k, as `t2kMmlInit`
      computes it with the ratio s: the A is set exactly and every other
      entry is the one below it times s. */
  function FreqAt(s: real, k: nat, m: nat): real
    decreases m
  {
    if m == 0 then OctaveBase(k) else FreqAt(s, k, m - 1) * s
  }

  /** Entry i of the table: octave i / 12, i % 12 semitones up. */
  function FreqEntry(s: real, i: nat): (f: real)
    ensures i % 12 == 0 ==> f == OctaveBase(i / 12)
    ensures i == 0 ==> f == 27.5
  {
    FreqAt(s, i / 12, i % 12)
  }

  /** One entry of the table from the one below it: each A is reset to
      55 * 2^(octave-1) Hz, every other entry is the one below it times s. */
  lemma FreqStep(s: real, i: nat)
    requires i > 0
    ensures i % 12 == 0 ==> FreqEntry(s, i) == 55.0 * Pow2(i / 12 - 1) as real
    ensures i % 12 != 0 ==> FreqEntry(s, i) == FreqEntry(s, i - 1) * s
  {
    if i % 12 != 0 {
      assert (i - 1) / 12 == i / 12 && (i - 1) % 12 == i % 12 - 1;
    }
  }

  /** The value the table loop stores at entry i, from the running
      product f: the A of the octave, or f itself. */
  lemma TableStep(s: real, i: nat, f: real)
    requires i > 0 && f == FreqEntry(s, i - 1) * s
    ensures (if i % 12 == 0 then 55.0 * Pow2(i / 12 - 1) as real else f) == FreqEntry(s, i)
  {
    FreqStep(s, i);
  }

  lemma MulAssoc(a: real, b: real, c: real)
    ensures (a * b) * c == a * (b * c)
  {
  }

  /** The entry m semitones above the A of octave k is that A times s^m. */
  lemma {:induction false} FreqClosedForm(s: real, k: nat, m: nat)
    ensures FreqAt(s, k, m) == OctaveBase(k) * Power(s, m)
  {
    if m > 0 {
      FreqClosedForm(s, k, m - 1);
      MulAssoc(OctaveBase(k), Power(s, m - 1), s);
    }
  }

  /** s^(a+b) = s^a * s^b. */
  lemma {:induction false} PowerAdd(s: real, a: nat, b: nat)
    ensures Power(s, a + b) == Power(s, a) * Power(s, b)
    decreases b
  {
    if b > 0 {
      PowerAdd(s, a, b - 1);
      assert Power(s, a + b) == Power(s, a + b - 1) * s;
    }
  }

  /** With s^12 = 2, k octaves multiply by 2^k. */
  lemma {:induction false} PowerOctaves(s: real, k: nat)
    requires Power(s, 12) == 2.0
    ensures Power(s, 12 * k) == Pow2(k) as real
  {
    if k > 0 {
      PowerOctaves(s, k - 1);
      PowerAdd(s, 12 * (k - 1), 12);
      assert 12 * k == 12 * (k - 1) + 12;
    }
  }

  /** The A of octave k is 27.5 * 2^k Hz. */
  lemma OctaveDoubles(k: nat)
    ensures OctaveBase(k) == 27.5 * Pow2(k) as real
  {
    if k > 0 {
      assert Pow2(k) == 2 * Pow2(k - 1);
    }
  }

  /** With s^12 = 2, the entry m semitones above the A of octave k is
      27.5 * s^(12k+m). */
  lemma GeometricAt(s: real, k: nat, m: nat)
    requires Power(s, 12) == 2.0
    ensures FreqAt(s, k, m) == 27.5 * Power(s, 12 * k + m)
  {
    FreqClosedForm(s, k, m);
    PowerAdd(s, 12 * k, m);
    PowerOctaves(s, k);
    OctaveDoubles(k);
    MulAssoc(27.5, Pow2(k) as real, Power(s, m));
  }

  /** When s^12 is exactly 2 the octave resets change nothing: the table
      is the geometric sequence 27.5 * s^i. */
  lemma FreqGeometric(s: real, i: nat)
    requires Power(s, 12) == 2.0
    ensures FreqEntry(s, i) == 27.5 * Power(s, i)
  {
    GeometricAt(s, i / 12, i % 12);
  }

  /** How `registerMML` ends: with its result, by a trap, or (in the model
      only) when its rounds run out. */
  datatype Registered = Registered(result: bool) | Halts | Unfinished

  /** The channel that no MML has been given yet. */
  const Idle := Channel(false, "", 0, -1, false, false, InitialState())

  // ---------------------------------------------------------------- the scheduler as functions

  /** The silent tone `t2kAddTone` is given for a channel's pending rest. */
  function RestPacket(ch: Channel): ToneInfo
  {
    Packet(0.0, Millis(ch.state.unsendRest), 0)
  }

  /** A queue after the tone t, if any, is appended to it. */
  function Queued(q: seq<ToneInfo>, t: Option<Output>): (r: seq<ToneInfo>)
    ensures q <= r && |r| == |q| + (if t.Some? then 1 else 0)
  {
    if t.Some? then q + [PacketOf(t.value)] else q
  }

  /** One round of `registerMML` before the end of the text, on channel ch
      and its queue q: the parse, if a command was read, and the new channel
      and queue. */
  datatype Attempt = Attempt(parse: Option<Parse>, ch: Channel, q: seq<ToneInfo>)

  /** A pending rest that does not fit ends the round with nothing read; a
      pending rest that fits is queued first and is then no longer pending;
      then one command is interpreted with the room that is left. */
  function AdvanceOn(ch: Channel, q: seq<ToneInfo>, freq: seq<real>): (a: Attempt)
    requires |freq| == TableSize && ValidState(ch.state) && |q| <= QueueLength
    ensures ValidState(a.ch.state) && SameTrack(a.ch, ch) && q <= a.q && |a.q| <= QueueLength
    ensures a.parse.None? <==> ch.state.unsendRest > 0.0 && |q| == QueueLength
    ensures a.parse.None? ==> a.ch == ch && a.q == q
    ensures a.parse == Some(Rewound) ==> |a.q| == QueueLength
  {
    if ch.state.unsendRest > 0.0 && |q| == QueueLength then Attempt(None, ch, q)
    else
      var ch1 := if ch.state.unsendRest > 0.0 then ch.(state := ch.state.(unsendRest := -1.0)) else ch;
      var q1 := if ch.state.unsendRest > 0.0 then q + [RestPacket(ch)] else q;
      var e := Interpretation(ch1, freq, |q1| < QueueLength);
      Attempt(Some(e.parse), e.ch, Queued(q1, e.queued))
  }

  /** Why `registerMML` stopped: at the end of a text without a repeat
      point, on a full queue, on a refused command, with more than 100 ms
      queued, on a trap, or (in the model only) when its rounds ran out. */
  datatype Exit = AtEnd | OnFullQueue | OnRefusal | OnEnough | OnTrap | OutOfRounds

  /** The channel, its queue and the total after `registerMML`, with its
      result and the reason it stopped. */
  datatype Registration = Registration(ch: Channel, q: seq<ToneInfo>, total: int16, result: Registered, exit: Exit)

  /** One round of `registerMML`: it stops with its registration, or goes
      on with a new channel, queue, flag and total. */
  datatype RegisterStep = Stop(g: Registration) | Next(ch: Channel, q: seq<ToneInfo>, any: bool, total: int16)

  /** A round on channel ch and its queue q, with the flag `any` (some
      command was seen) and the int16 total of queued milliseconds so far:
      at the end of the text it stops or starts again from the repeat
      point; otherwise it reads a command, and stops on a full queue, a trap
      or a refusal, or once more than 100 ms are queued outside a repeat. */
  function RegisterTurn(ch: Channel, q: seq<ToneInfo>, freq: seq<real>, any: bool, total: int16): (t: RegisterStep)
    requires |freq| == TableSize && ValidState(ch.state) && |q| <= QueueLength
    ensures t.Next? ==> ValidState(t.ch.state) && SameTrack(t.ch, ch) && q <= t.q && |t.q| <= QueueLength && (any ==> t.any)
    ensures t.Stop? ==> var g := t.g;
      ValidState(g.ch.state) && SameTrack(g.ch, ch) && q <= g.q && |g.q| <= QueueLength
      && g.exit != OutOfRounds && (g.exit == OnTrap <==> g.result.Halts?) && !g.result.Unfinished?
      && (g.exit == OnFullQueue ==> g.result == Registered(true) && |g.q| == QueueLength)
      && (g.exit == OnRefusal ==> g.result == Registered(false))
      && (g.exit == AtEnd ==> g.ch.cursor >= |g.ch.text| && g.ch.repeatStart < 0 && (any ==> g.result == Registered(true)))
      && (g.exit == OnEnough ==> g.total > BufferingMSec && (g.ch.cursor < |g.ch.text| || g.ch.repeatStart < 0)
                                 && (any ==> g.result == Registered(true)))
  {
    if ch.cursor >= |ch.text| then
      if ch.repeatStart < 0 then Stop(Registration(ch, q, total, Registered(any), AtEnd))
      else Next(ch.(cursor := ch.repeatStart as nat), q, any, total)
    else
      var a := AdvanceOn(ch, q, freq);
      match a.parse
      case None => Stop(Registration(a.ch, a.q, total, Registered(true), OnFullQueue))
      case Some(Halted) => Stop(Registration(a.ch, a.q, total, Halts, OnTrap))
      case Some(Refused) => Stop(Registration(a.ch, a.q, total, Registered(false), OnRefusal))
      case Some(Rewound) => Stop(Registration(a.ch, a.q, total, Registered(true), OnFullQueue))
      case Some(Moved(h, tone)) =>
        var total' := if tone.Some? then ToInt16(total + tone.value) else total;
        if tone.Some? && total' > BufferingMSec && (a.ch.cursor < |a.ch.text| || a.ch.repeatStart < 0) then
          Stop(Registration(a.ch, a.q, total', Registered(any || h), OnEnough))
        else Next(a.ch, a.q, any || h, total')
  }

  /** `registerMML` for at most `fuel` rounds. It returns true when the
      queue is full, false on a refused command, and otherwise whether some
      command was seen; it never touches the text or the playing flags. */
  function Register(ch: Channel, q: seq<ToneInfo>, freq: seq<real>, any: bool, total: int16, fuel: nat): (g: Registration)
    requires |freq| == TableSize && ValidState(ch.state) && |q| <= QueueLength
    ensures ValidState(g.ch.state) && SameTrack(g.ch, ch) && q <= g.q && |g.q| <= QueueLength
    ensures g.exit == OnTrap <==> g.result.Halts?
    ensures g.exit == OutOfRounds <==> g.result.Unfinished?
    ensures g.exit == OnFullQueue ==> g.result == Registered(true) && |g.q| == QueueLength
    ensures g.exit == OnRefusal ==> g.result == Registered(false)
    ensures g.exit == AtEnd ==> g.ch.cursor >= |g.ch.text| && g.ch.repeatStart < 0 && (any ==> g.result == Registered(true))
    ensures g.exit == OnEnough ==> g.total > BufferingMSec && (g.ch.cursor < |g.ch.text| || g.ch.repeatStart < 0)
                                   && (any ==> g.result == Registered(true))
    decreases fuel, 2
  {
    if fuel == 0 then Registration(ch, q, total, Unfinished, OutOfRounds)
    else RegisterLeft(ch, q, freq, any, total, fuel)
  }

  /** `registerMML` with at least one round left. This step only passes
      the rounds on to `RegisterFrom`; it keeps a proof about a whole
      registration from unfolding the commands of its first round. */
  function RegisterLeft(ch: Channel, q: seq<ToneInfo>, freq: seq<real>, any: bool, total: int16, fuel: nat): (g: Registration)
    requires |freq| == TableSize && ValidState(ch.state) && |q| <= QueueLength && fuel > 0
    ensures ValidState(g.ch.state) && SameTrack(g.ch, ch) && q <= g.q && |g.q| <= QueueLength
    ensures g.exit == OnTrap <==> g.result.Halts?
    ensures g.exit == OutOfRounds <==> g.result.Unfinished?
    ensures g.exit == OnFullQueue ==> g.result == Registered(true) && |g.q| == QueueLength
    ensures g.exit == OnRefusal ==> g.result == Registered(false)
    ensures g.exit == AtEnd ==> g.ch.cursor >= |g.ch.text| && g.ch.repeatStart < 0 && (any ==> g.result == Registered(true))
    ensures g.exit == OnEnough ==> g.total > BufferingMSec && (g.ch.cursor < |g.ch.text| || g.ch.repeatStart < 0)
                                   && (any ==> g.result == Registered(true))
    decreases fuel, 1
  {
    RegisterFrom(ch, q, freq, any, total, fuel)
  }

  /** `registerMML` from its start: no command seen yet and nothing queued
      in this call. */
  function RegisterAll(ch: Channel, q: seq<ToneInfo>, freq: seq<real>, fuel: nat): (g: Registration)
    requires |freq| == TableSize && ValidState(ch.state) && |q| <= QueueLength
    ensures SameTrack(g.ch, ch) && q <= g.q && |g.q| <= QueueLength
    ensures g.exit == OnFullQueue ==> g.result == Registered(true) && |g.q| == QueueLength
    ensures g.exit == OnRefusal ==> g.result == Registered(false)
  {
    Register(ch, q, freq, false, 0, fuel)
  }

  /** `registerMML` with at least one round left: the registration its
      round stopped with, or the rounds that follow from the channel, queue,
      flag and total it went on with. */
  function RegisterFrom(ch: Channel, q: seq<ToneInfo>, freq: seq<real>, any: bool, total: int16, fuel: nat): (g: Registration)
    requires |freq| == TableSize && ValidState(ch.state) && |q| <= QueueLength && fuel > 0
    ensures ValidState(g.ch.state) && SameTrack(g.ch, ch) && q <= g.q && |g.q| <= QueueLength
    ensures g.exit == OnTrap <==> g.result.Halts?
    ensures g.exit == OutOfRounds <==> g.result.Unfinished?
    ensures g.exit == OnFullQueue ==> g.result == Registered(true) && |g.q| == QueueLength
    ensures g.exit == OnRefusal ==> g.result == Registered(false)
    ensures g.exit == AtEnd ==> g.ch.cursor >= |g.ch.text| && g.ch.repeatStart < 0 && (any ==> g.result == Registered(true))
    ensures g.exit == OnEnough ==> g.total > BufferingMSec && (g.ch.cursor < |g.ch.text| || g.ch.repeatStart < 0)
                                   && (any ==> g.result == Registered(true))
    decreases fuel, 0
  {
    match RegisterTurn(ch, q, freq, any, total)
    case Stop(g) => g
    case Next(ch', q', any', total') =>
      var g := Register(ch', q', freq, any', total', fuel - 1);
      PrefixTrans(q, q', g.q);
      g
  }

  /** A channel as `t2kUpdateMML` sees it: the channel, its queue, the
      milliseconds queued for it in this call (`totalDurationMSec`, 16
      bits) and whether its queue was found full (`scoreQueueIsFull`). */
  datatype Lane = Lane(ch: Channel, q: seq<ToneInfo>, total: uint16, full: bool)

  /** The channel's state is valid and its queue holds at most 32 tones. */
  predicate Fits(l: Lane)
  {
    ValidState(l.ch.state) && |l.q| <= QueueLength
  }

  /** What `t2kUpdateMML` keeps from lane a to lane b: the text, and the
      queue as a prefix; a channel that is stopped or not playing is left
      as it was. */
  predicate Grows(a: Lane, b: Lane)
  {
    b.ch.text == a.ch.text && a.q <= b.q && (!(a.ch.isAlive && a.ch.nowPlaying) ==> b == a)
  }

  /** Growing twice is growing. */
  lemma GrowsTrans(a: Lane, b: Lane, c: Lane)
    requires Grows(a, b) && Grows(b, c)
    ensures Grows(a, c)
  {
    PrefixTrans(a.q, b.q, c.q);
  }

  /** `GrowsTrans` lane by lane. */
  lemma GrowsAll(a: seq<Lane>, b: seq<Lane>, c: seq<Lane>)
    requires |a| == NumChannels && |b| == NumChannels && |c| == NumChannels
    requires forall j :: 0 <= j < NumChannels ==> Grows(a[j], b[j])
    requires forall j :: 0 <= j < NumChannels ==> Grows(b[j], c[j])
    ensures forall j :: 0 <= j < NumChannels ==> Grows(a[j], c[j])
  {
    forall j | 0 <= j < NumChannels
      ensures Grows(a[j], c[j])
    {
      GrowsTrans(a[j], b[j], c[j]);
    }
  }

  /** `registerMML` is its first round, then the rest unless it stopped. */
  lemma RegisterNext(ch: Channel, q: seq<ToneInfo>, freq: seq<real>, any: bool, total: int16, fuel: nat, t: RegisterStep)
    requires |freq| == TableSize && ValidState(ch.state) && |q| <= QueueLength && fuel > 0
    requires t == RegisterTurn(ch, q, freq, any, total)
    ensures t.Stop? ==> Register(ch, q, freq, any, total, fuel) == t.g
    ensures t.Next? ==> Register(ch, q, freq, any, total, fuel) == Register(t.ch, t.q, freq, t.any, t.total, fuel - 1)
  {
    assert Register(ch, q, freq, any, total, fuel) == RegisterLeft(ch, q, freq, any, total, fuel);
    assert RegisterLeft(ch, q, freq, any, total, fuel) == RegisterFrom(ch, q, freq, any, total, fuel);
    RegisterFromNext(ch, q, freq, any, total, fuel, t);
  }

  /** `RegisterFrom` is its first round, then the rest unless it stopped. */
  lemma RegisterFromNext(ch: Channel, q: seq<ToneInfo>, freq: seq<real>, any: bool, total: int16, fuel: nat, t: RegisterStep)
    requires |freq| == TableSize && ValidState(ch.state) && |q| <= QueueLength && fuel > 0
    requires t == RegisterTurn(ch, q, freq, any, total)
    ensures t.Stop? ==> RegisterFrom(ch, q, freq, any, total, fuel) == t.g
    ensures t.Next? ==> RegisterFrom(ch, q, freq, any, total, fuel) == Register(t.ch, t.q, freq, t.any, t.total, fuel - 1)
  {
  }

  /** A channel's turn in a round of `t2kUpdateMML`: the new lane, whether
      a packet was queued and whether a command trapped. */
  datatype Turned = Turned(lane: Lane, again: bool, halted: bool)

  /** A live channel's turn before the end of its text: a pending rest is
      queued when it fits (and the total goes down by one, as the source adds
      the rest after setting it to -1), or else one command is interpreted;
      a refused command stops the channel, a tone that does not fit marks the
      queue full, and a queued tone adds its duration to the total, wrapping
      at 16 bits. A packet is appended exactly when `again` is set, and a
      trap changes nothing. */
  function FeedOn(l: Lane, freq: seq<real>): (t: Turned)
    requires |freq| == TableSize && Fits(l)
    ensures Fits(t.lane) && t.lane.ch.text == l.ch.text && l.q <= t.lane.q
    ensures |t.lane.q| == |l.q| + (if t.again then 1 else 0)
    ensures t.halted ==> !t.again && t.lane == l
    ensures !l.full && t.lane.full ==> |l.q| == QueueLength
  {
    var ch := l.ch;
    if ch.state.unsendRest > 0.0 then
      if |l.q| < QueueLength then
        Turned(l.(ch := ch.(state := ch.state.(unsendRest := -1.0)), q := l.q + [RestPacket(ch)],
                  total := ToUint16(l.total - 1)), true, false)
      else Turned(l, false, false)
    else Fed(l, Interpretation(ch, freq, |l.q| < QueueLength))
  }

  /** Without a pending rest, a turn is the bookkeeping of one command. */
  lemma FeedOnCommand(l: Lane, freq: seq<real>, e: Effect)
    requires |freq| == TableSize && Fits(l) && l.ch.state.unsendRest <= 0.0
    requires e == Interpretation(l.ch, freq, |l.q| < QueueLength)
    ensures FeedOn(l, freq) == Fed(l, e)
  {
  }

  /** The bookkeeping after a command of lane l had the effect e: a refused
      command stops the channel, the tone, if any, is queued and adds its
      duration to the total (wrapping at 16 bits), and a rewound tone marks
      the queue full. */
  function Fed(l: Lane, e: Effect): (t: Turned)
    ensures t.lane.q == Queued(l.q, e.queued) && t.again == e.queued.Some?
    ensures t.lane.ch.isAlive <==> e.ch.isAlive && !e.parse.Refused?
    ensures t.lane.full <==> l.full || e.parse.Rewound?
    ensures t.halted <==> e.parse.Halted?
    ensures !t.again ==> t.lane.total == l.total
  {
    Turned(Lane(if e.parse.Refused? then e.ch.(isAlive := false) else e.ch,
                Queued(l.q, e.queued),
                if e.queued.Some? then ToUint16(l.total + e.queued.value.duration) else l.total,
                l.full || e.parse.Rewound?),
           e.queued.Some?, e.parse.Halted?)
  }

  /** One channel's turn in a round of `t2kUpdateMML`: a channel that is
      stopped or not playing is skipped; at the end of its text it stops or
      starts again from its repeat point; then it is fed. */
  function ServiceOn(l: Lane, freq: seq<real>): (t: Turned)
    requires |freq| == TableSize && Fits(l)
    ensures Served(l, t)
    ensures !(l.ch.isAlive && l.ch.nowPlaying) ==> t == Turned(l, false, false)
    ensures t.halted ==> !t.again && t.lane == l.(ch := Resume(l.ch))
    ensures !l.full && t.lane.full ==> |l.q| == QueueLength
  {
    if !l.ch.isAlive || !l.ch.nowPlaying then Turned(l, false, false)
    else if !Resume(l.ch).isAlive then Turned(l.(ch := Resume(l.ch)), false, false)
    else FeedOn(l.(ch := Resume(l.ch)), freq)
  }

  /** What a channel's turn t from lane l keeps: the new lane fits and
      grows from l, by one packet exactly when `again` is set, and a trap
      queues nothing. */
  predicate Served(l: Lane, t: Turned)
  {
    Fits(t.lane) && Grows(l, t.lane) && |t.lane.q| == |l.q| + (if t.again then 1 else 0)
    && (t.halted ==> !t.again)
  }

  /** Four lanes that fit. */
  predicate Scheduled(ls: seq<Lane>)
  {
    |ls| == NumChannels && forall k :: 0 <= k < NumChannels ==> Fits(ls[k])
  }

  /** The lanes of channels chs with queues qs, totals and full flags. */
  function LanesOf(chs: seq<Channel>, qs: seq<seq<ToneInfo>>, totals: seq<uint16>, full: seq<bool>): (ls: seq<Lane>)
    requires |chs| == NumChannels && |qs| == NumChannels && |totals| == NumChannels && |full| == NumChannels
    ensures |ls| == NumChannels
    ensures forall j :: 0 <= j < NumChannels ==> ls[j] == Lane(chs[j], qs[j], totals[j], full[j])
  {
    seq(NumChannels, j requires 0 <= j < NumChannels => Lane(chs[j], qs[j], totals[j], full[j]))
  }

  /** The totals and full flags at the start of `t2kUpdateMML`. */
  const Zeros: seq<uint16> := [0, 0, 0, 0]
  const NoneFull: seq<bool> := [false, false, false, false]

  /** The free places left in the four queues. */
  function Room(ls: seq<Lane>): int
    requires |ls| == NumChannels
  {
    (QueueLength - |ls[0].q|) + (QueueLength - |ls[1].q|) + (QueueLength - |ls[2].q|) + (QueueLength - |ls[3].q|)
  }

  /** Growing queue k by some packets takes as many free places. */
  lemma RoomUpdate(ls: seq<Lane>, k: nat, l: Lane)
    requires |ls| == NumChannels && k < NumChannels
    ensures Room(ls[k := l]) == Room(ls) - (|l.q| - |ls[k].q|)
  {
  }

  /** The four lanes after a round (or after `t2kUpdateMML`), whether the
      last round queued a packet and whether a command trapped. */
  datatype Rounded = Rounded(lanes: seq<Lane>, again: bool, halted: bool)

  /** A round of `t2kUpdateMML` from channel k on, `again` saying whether an
      earlier channel of the round queued a packet; a trap ends it. Every
      lane grows, and a packet takes a free place. */
  function RoundFrom(ls: seq<Lane>, freq: seq<real>, k: nat, again: bool): (r: Rounded)
    requires |freq| == TableSize && Scheduled(ls) && k <= NumChannels
    ensures Scheduled(r.lanes)
    ensures forall j :: 0 <= j < NumChannels ==> Grows(ls[j], r.lanes[j])
    ensures Room(r.lanes) <= Room(ls) && (r.again && !again ==> Room(r.lanes) < Room(ls))
    decreases NumChannels - k, 1
  {
    if k == NumChannels then Rounded(ls, again, false)
    else RoundOn(ServiceOn(ls[k], freq), ls, freq, k, again)
  }

  /** The round after channel k had the turn t: it ends on a trap, and
      otherwise goes on from channel k + 1. */
  function RoundOn(t: Turned, ls: seq<Lane>, freq: seq<real>, k: nat, again: bool): (r: Rounded)
    requires |freq| == TableSize && Scheduled(ls) && k < NumChannels && Served(ls[k], t)
    ensures Scheduled(r.lanes)
    ensures forall j :: 0 <= j < NumChannels ==> Grows(ls[j], r.lanes[j])
    ensures Room(r.lanes) <= Room(ls) && (r.again && !again ==> Room(r.lanes) < Room(ls))
    decreases NumChannels - k, 0
  {
    var ls' := ls[k := t.lane];
    RoomUpdate(ls, k, t.lane);
    if t.halted then Rounded(ls', again, true)
    else
      var r := RoundFrom(ls', freq, k + 1, again || t.again);
      GrowsAll(ls, ls', r.lanes);
      r
  }

  /** A round from channel k is channel k's turn, then the rest of the
      round unless it trapped. */
  lemma RoundStep(ls: seq<Lane>, freq: seq<real>, k: nat, again: bool, t: Turned)
    requires |freq| == TableSize && Scheduled(ls) && k < NumChannels
    requires t == ServiceOn(ls[k], freq)
    ensures RoundFrom(ls, freq, k, again) ==
      if t.halted then Rounded(ls[k := t.lane], again, true)
      else RoundFrom(ls[k := t.lane], freq, k + 1, again || t.again)
  {
  }

  /** Every live channel has at least 100 ms queued in this call. */
  predicate BufferedAll(ls: seq<Lane>)
    requires |ls| == NumChannels
  {
    forall k :: 0 <= k < NumChannels && ls[k].ch.isAlive ==> ls[k].total >= BufferingMSec
  }

  /** Every live channel found its queue full in this call. */
  predicate FullAll(ls: seq<Lane>)
    requires |ls| == NumChannels
  {
    forall k :: 0 <= k < NumChannels && ls[k].ch.isAlive ==> ls[k].full
  }

  /** `t2kUpdateMML` from the lanes so far: rounds go on while the last one
      queued a packet, until a trap, until every live channel has 100 ms
      queued, or until every live channel found its queue full. Every round
      that goes on takes a free place, so the rounds end. Every lane grows. */
  function UpdateFrom(ls: seq<Lane>, freq: seq<real>): (u: Rounded)
    requires |freq| == TableSize && Scheduled(ls)
    ensures Scheduled(u.lanes)
    ensures forall j :: 0 <= j < NumChannels ==> Grows(ls[j], u.lanes[j])
    ensures !u.halted ==> !u.again || BufferedAll(u.lanes) || FullAll(u.lanes)
    decreases Room(ls), 1
  {
    UpdateOn(RoundFrom(ls, freq, 0, false), ls, freq)
  }

  /** `t2kUpdateMML` after the round r from lanes ls: it ends on a trap,
      when the round queued nothing, or when every live channel is buffered
      or full, and otherwise goes on with another round. */
  function UpdateOn(r: Rounded, ls: seq<Lane>, freq: seq<real>): (u: Rounded)
    requires |freq| == TableSize && Scheduled(ls) && Scheduled(r.lanes)
    requires forall j :: 0 <= j < NumChannels ==> Grows(ls[j], r.lanes[j])
    requires r.again ==> Room(r.lanes) < Room(ls)
    ensures Scheduled(u.lanes)
    ensures forall j :: 0 <= j < NumChannels ==> Grows(ls[j], u.lanes[j])
    ensures !u.halted ==> !u.again || BufferedAll(u.lanes) || FullAll(u.lanes)
    decreases Room(ls), 0
  {
    if r.halted || !r.again || BufferedAll(r.lanes) || FullAll(r.lanes) then r
    else
      var u := UpdateFrom(r.lanes, freq);
      GrowsAll(ls, r.lanes, u.lanes);
      u
  }

  /** `t2kUpdateMML` is a round, then what follows it. */
  lemma UpdateStep(ls: seq<Lane>, freq: seq<real>, r: Rounded)
    requires |freq| == TableSize && Scheduled(ls)
    requires r == RoundFrom(ls, freq, 0, false)
    ensures UpdateFrom(ls, freq) ==
      if r.halted || !r.again || BufferedAll(r.lanes) || FullAll(r.lanes) then r
      else UpdateFrom(r.lanes, freq)
  {
  }

  class Engine {
    const channels: array<Channel>
    /** `gFreqTable`. */
    const freq: array<real>
    const sound: Sound

    ghost predicate Valid()
      reads this, channels, sound, sound.soundBuf
    {
      channels.Length == NumChannels && freq.Length == TableSize && sound.Valid()
      && forall k :: 0 <= k < NumChannels ==> ValidState(channels[k].state)
    }

    constructor (sound: Sound)
      requires sound.Valid()
      ensures Valid() && this.sound == sound && fresh(channels) && fresh(freq)
      ensures forall k :: 0 <= k < NumChannels ==> channels[k] == Idle
    {
      channels := new Channel[NumChannels](_ => Idle);
      freq := new real[TableSize](_ => 0.0);
      this.sound := sound;
    }

    /** `t2kMmlInit`, given the semitone ratio s (2^(1/12) as a float):
        the frequency table is filled and every channel is stopped. */
    method MmlInit(s: real)
      requires Valid()
      modifies freq, channels
      ensures Valid()
      ensures freq[RestIndex] == 0.0
      ensures forall i :: 0 <= i < RestIndex ==> freq[i] == FreqEntry(s, i)
      ensures forall k :: 0 <= k < NumChannels ==> channels[k] == old(channels[k]).(isAlive := false)
    {
      FillTable(s);
      ghost var table := freq[..];
      var k := 0;
      while k < NumChannels
        invariant 0 <= k <= NumChannels
        invariant freq[..] == table
        invariant forall j :: 0 <= j < k ==> channels[j] == old(channels[j]).(isAlive := false)
        invariant forall j :: k <= j < NumChannels ==> channels[j] == old(channels[j])
      {
        channels[k] := channels[k].(isAlive := false);
        k := k + 1;
      }
    }

    /** The table loop of `t2kMmlInit`: the rest entry is 0 and every
        other entry is `FreqEntry`. */
    method FillTable(s: real)
      requires freq.Length == TableSize
      modifies freq
      ensures freq[RestIndex] == 0.0
      ensures forall i :: 0 <= i < RestIndex ==> freq[i] == FreqEntry(s, i)
    {
      freq[RestIndex] := 0.0;
      var f := 27.5;
      freq[0] := f;
      f := f * s;
      var i := 1;
      while i < RestIndex
        invariant 1 <= i <= RestIndex
        invariant freq[RestIndex] == 0.0
        invariant forall j {:trigger freq[j]} :: 0 <= j < i ==> freq[j] == FreqEntry(s, j)
        invariant f == FreqEntry(s, i - 1) * s
      {
        f := TableRound(s, i, f);
        i := i + 1;
      }
    }

    /** One round of the table loop: entry i is the A of its octave or the
        running product, which then moves on by s. */
    method TableRound(s: real, i: nat, f: real) returns (f': real)
      requires freq.Length == TableSize && 0 < i < RestIndex && f == FreqEntry(s, i - 1) * s
      modifies freq
      ensures freq[..] == old(freq[..])[i := FreqEntry(s, i)]
      ensures f' == FreqEntry(s, i) * s
    {
      TableStep(s, i, f);
      f' := f;
      if i % 12 == 0 {
        f' := 55.0 * Pow2(i / 12 - 1) as real;
      }
      freq[i] := f';
      f' := f' * s;
    }

    /** One command of channel c: the tone, if any, is offered to the
        channel's queue, and the effect is what `Interpretation` says of
        it. */
    method Interpret(c: nat) returns (e: Effect)
      requires Valid() && c < NumChannels
      modifies channels, sound
      ensures Valid()
      ensures e == Interpretation(old(channels[c]), freq[..], |old(sound.queues[c])| < QueueLength)
      ensures channels[..] == old(channels[..])[c := e.ch]
      ensures sound.queues == Enqueued(old(sound.queues), c, e.queued)
      ensures old(sound.queues[c]) <= sound.queues[c]
    {
      var ch := channels[c];
      var o := Step(ch, freq[..], true, Corrected);
      var ok := false;
      if o.Done? && o.out.isTone {
        ok := sound.AddTone(c as uint8, o.out.freq, o.out.duration, o.out.volume);
      }
      e := Deliver(ch, o, ok);
      channels[c] := e.ch;
    }

    /** The pending rest of channel c as a silent tone; once queued it is
        no longer pending (-1). */
    method SendRest(c: nat) returns (ok: bool)
      requires Valid() && c < NumChannels && channels[c].state.unsendRest > 0.0
      modifies channels, sound
      ensures Valid()
      ensures ok <==> |old(sound.queues[c])| < QueueLength
      ensures ok ==> sound.queues == old(sound.queues)[c := old(sound.queues[c]) + [Packet(0.0, Millis(old(channels[c]).state.unsendRest), 0)]]
      ensures ok ==> channels[..] == old(channels[..])[c := old(channels[c]).(state := old(channels[c]).state.(unsendRest := -1.0))]
      ensures !ok ==> sound.queues == old(sound.queues) && channels[..] == old(channels[..])
      ensures old(sound.queues[c]) <= sound.queues[c]
    {
      ok := sound.AddTone(c as uint8, 0.0, Millis(channels[c].state.unsendRest), 0);
      if ok {
        channels[c] := channels[c].(state := channels[c].state.(unsendRest := -1.0));
      }
    }

    /** One round of `registerMML` before the end of the text: the pending
        rest is queued first, and if it does not fit the round ends with
        nothing (None); otherwise one command is interpreted. Channel c and
        its queue become what `AdvanceOn` says; nothing else changes. */
    method Advance(c: nat) returns (p: Option<Parse>)
      requires Valid() && c < NumChannels
      modifies channels, sound
      ensures Valid()
      ensures Attempt(p, channels[c], sound.queues[c]) == AdvanceOn(old(channels[c]), old(sound.queues[c]), freq[..])
      ensures channels[..] == old(channels[..])[c := channels[c]] && sound.queues == old(sound.queues)[c := sound.queues[c]]
    {
      if channels[c].state.unsendRest > 0.0 {
        var ok := SendRest(c);
        if !ok {
          return None;
        }
      }
      var e := Interpret(c);
      return Some(e.parse);
    }

    /** `registerMML`: commands of channel c are interpreted until the
        queue is full, a command fails, or more than 100 ms of tones are
        queued, starting again at the repeat point at the end of the text.
        The result, the channel and its queue are what `Register` says; no
        other channel changes. The source may run forever (a command that
        does not move, or a repeated part without tones); the model stops
        after `fuel` rounds. */
    method RegisterMml(c: nat, fuel: nat) returns (r: Registered)
      requires Valid() && c < NumChannels
      modifies channels, sound
      ensures Valid()
      ensures var g := RegisterAll(old(channels[c]), old(sound.queues[c]), freq[..], fuel);
        r == g.result && channels[..] == old(channels[..])[c := g.ch] && sound.queues == old(sound.queues)[c := g.q]
    {
      ghost var table := freq[..];
      ghost var goal := RegisterAll(channels[c], sound.queues[c], table, fuel);
      var any := false;
      var total: int16 := 0;
      var rounds := fuel;
      while rounds > 0
        invariant Valid() && freq[..] == table
        invariant Register(channels[c], sound.queues[c], table, any, total, rounds) == goal
        invariant channels[..] == old(channels[..])[c := channels[c]] && sound.queues == old(sound.queues)[c := sound.queues[c]]
        decreases rounds
      {
        var stop;
        stop, any, total := RegisterRound(c, any, total, rounds, table);
        if stop.Some? {
          return stop.value;
        }
        rounds := rounds - 1;
      }
      return Unfinished;
    }

    /** A round of `registerMML` with `rounds` rounds left: if it stops,
        its result, channel and queue are the registration's; otherwise the
        rounds left from the new channel, queue, flag and total register
        the same. */
    method RegisterRound(c: nat, any: bool, total: int16, rounds: nat, ghost table: seq<real>)
      returns (stop: Option<Registered>, any': bool, total': int16)
      requires Valid() && c < NumChannels && freq[..] == table && rounds > 0
      modifies channels, sound
      ensures Valid() && freq[..] == table
      ensures var g := Register(old(channels[c]), old(sound.queues[c]), table, any, total, rounds);
        (stop.Some? ==> stop.value == g.result && channels[c] == g.ch && sound.queues[c] == g.q)
        && (stop.None? ==> Register(channels[c], sound.queues[c], table, any', total', rounds - 1) == g)
      ensures channels[..] == old(channels[..])[c := channels[c]] && sound.queues == old(sound.queues)[c := sound.queues[c]]
    {
      ghost var turn := RegisterTurn(channels[c], sound.queues[c], table, any, total);
      RegisterNext(channels[c], sound.queues[c], table, any, total, rounds, turn);
      stop, any', total' := Turn(c, any, total, table);
    }

    /** One round of `registerMML` on channel c: at the end of the text it
        stops or starts again from the repeat point; otherwise it reads a
        command, and stops on a full queue, a trap or a refusal, or once
        more than 100 ms are queued outside a repeat. The result (if it
        stops), the channel, its queue, the flag and the total are what
        `RegisterTurn` says; nothing else changes. */
    method Turn(c: nat, any: bool, total: int16, ghost table: seq<real>) returns (stop: Option<Registered>, any': bool, total': int16)
      requires Valid() && c < NumChannels && freq[..] == table
      modifies channels, sound
      ensures Valid()
      ensures var t := RegisterTurn(old(channels[c]), old(sound.queues[c]), table, any, total);
        (t.Stop? ==> stop == Some(t.g.result) && channels[c] == t.g.ch && sound.queues[c] == t.g.q)
        && (t.Next? ==> stop.None? && channels[c] == t.ch && sound.queues[c] == t.q && any' == t.any && total' == t.total)
      ensures channels[..] == old(channels[..])[c := channels[c]] && sound.queues == old(sound.queues)[c := sound.queues[c]]
    {
      any', total' := any, total;
      var ch := channels[c];
      if ch.cursor >= |ch.text| {
        if ch.repeatStart < 0 {
          return Some(Registered(any)), any', total';
        }
        channels[c] := ch.(cursor := ch.repeatStart as nat);
        return None, any', total';
      }
      var p := Advance(c);
      match p
      case None => return Some(Registered(true)), any', total';
      case Some(Halted) => return Some(Halts), any', total';
      case Some(Refused) => return Some(Registered(false)), any', total';
      case Some(Rewound) => return Some(Registered(true)), any', total';
      case Some(Moved(h, tone)) =>
        any' := any || h;
        if tone.Some? {
          total' := ToInt16(total + tone.value);
          if total' > BufferingMSec {
            ch := channels[c];
            if ch.cursor < |ch.text| || ch.repeatStart < 0 {
              return Some(Registered(any')), any', total';
            }
          }
        }
        return None, any', total';
    }

    /** The bookkeeping of `t2kUpdateMML` after one command of channel c
        had the effect e: a trap halts, a command that fails stops the
        channel, a tone that does not fit marks the queue full, and a queued
        tone adds its duration to the total (wrapping at 16 bits). `again`
        says a packet was queued. When the lane l was channel c before the
        command, the new lane is what `Fed` says. */
    method Account(c: nat, e: Effect, total: uint16, full: bool, ghost l: Lane) returns (total': uint16, full': bool, again: bool, halted: bool)
      requires Valid() && c < NumChannels
      requires e.queued.Some? <==> e.parse.Moved? && e.parse.tone.Some?
      requires e.queued.Some? ==> e.parse.tone.value == e.queued.value.duration
      requires l.total == total && l.full == full
      requires channels[c] == e.ch && sound.queues[c] == Queued(l.q, e.queued)
      modifies channels
      ensures Valid()
      ensures Turned(Lane(channels[c], sound.queues[c], total', full'), again, halted) == Fed(l, e)
      ensures halted <==> e.parse.Halted?
      ensures again <==> e.queued.Some?
      ensures full' <==> full || e.parse.Rewound?
      ensures channels[..] == old(channels[..])[c := if e.parse.Refused? then old(channels[c]).(isAlive := false) else old(channels[c])]
      ensures total' == if again then ToUint16(total + e.queued.value.duration) else total
    {
      total', full', again, halted := total, full, false, false;
      match e.parse
      case Halted => halted := true;
      case Refused => channels[c] := channels[c].(isAlive := false);
      case Rewound => full' := true;
      case Moved(_, tone) =>
        if tone.Some? {
          total', again := ToUint16(total + tone.value), true;
        }
    }

    /** A live channel's turn in a round of `t2kUpdateMML`, before the end
        of its text: a pending rest is queued (and the total, which the
        source adds after setting the rest to -1, goes down by one), or else
        one command is interpreted and accounted for. Channel c's lane
        becomes what `FeedOn` says; nothing else changes. */
    method Feed(c: nat, total: uint16, full: bool) returns (total': uint16, full': bool, again: bool, halted: bool)
      requires Valid() && c < NumChannels
      modifies channels, sound
      ensures Valid()
      ensures Turned(Lane(channels[c], sound.queues[c], total', full'), again, halted)
              == FeedOn(Lane(old(channels[c]), old(sound.queues[c]), total, full), freq[..])
      ensures channels[..] == old(channels[..])[c := channels[c]] && sound.queues == old(sound.queues)[c := sound.queues[c]]
    {
      if channels[c].state.unsendRest > 0.0 {
        total', again := FeedRest(c, total);
        full', halted := full, false;
      } else {
        total', full', again, halted := FeedCommand(c, total, full);
      }
    }

    /** A turn without a pending rest: one command interpreted and
        accounted for. */
    method FeedCommand(c: nat, total: uint16, full: bool) returns (total': uint16, full': bool, again: bool, halted: bool)
      requires Valid() && c < NumChannels && channels[c].state.unsendRest <= 0.0
      modifies channels, sound
      ensures Valid()
      ensures Turned(Lane(channels[c], sound.queues[c], total', full'), again, halted)
              == FeedOn(Lane(old(channels[c]), old(sound.queues[c]), total, full), freq[..])
      ensures channels[..] == old(channels[..])[c := channels[c]] && sound.queues == old(sound.queues)[c := sound.queues[c]]
    {
      ghost var l := Lane(channels[c], sound.queues[c], total, full);
      ghost var table := freq[..];
      var e := Interpret(c);
      total', full', again, halted := Account(c, e, total, full, l);
      assert freq[..] == table;
      FeedOnCommand(l, table, e);
    }

    /** The pending rest of channel c queued, if its queue has room; the
        total then goes down by one, as the source adds the rest after
        setting it to -1. */
    method FeedRest(c: nat, total: uint16) returns (total': uint16, again: bool)
      requires Valid() && c < NumChannels && channels[c].state.unsendRest > 0.0
      modifies channels, sound
      ensures Valid()
      ensures again <==> |old(sound.queues[c])| < QueueLength
      ensures var ch := old(channels[c]);
        again ==> total' == ToUint16(total - 1)
                  && channels[..] == old(channels[..])[c := ch.(state := ch.state.(unsendRest := -1.0))]
                  && sound.queues == old(sound.queues)[c := old(sound.queues[c]) + [RestPacket(ch)]]
      ensures !again ==> total' == total && channels[..] == old(channels[..]) && sound.queues == old(sound.queues)
    {
      again := SendRest(c);
      total' := total;
      if again {
        total' := ToUint16(total - 1);
      }
    }

    /** One channel's turn in a round of `t2kUpdateMML`. A channel that is
        stopped or not playing is skipped; at the end of its text it stops or
        starts again from its repeat point; then it is fed. Channel c's lane
        becomes what `ServiceOn` says; nothing else changes. */
    method Service(c: nat, total: uint16, full: bool) returns (total': uint16, full': bool, again: bool, halted: bool)
      requires Valid() && c < NumChannels
      modifies channels, sound
      ensures Valid()
      ensures Turned(Lane(channels[c], sound.queues[c], total', full'), again, halted)
              == ServiceOn(Lane(old(channels[c]), old(sound.queues[c]), total, full), freq[..])
      ensures channels[..] == old(channels[..])[c := channels[c]] && sound.queues == old(sound.queues)[c := sound.queues[c]]
    {
      total', full', again, halted := total, full, false, false;
      var ch := channels[c];
      if !ch.isAlive || !ch.nowPlaying {
        return;
      }
      if ch.cursor >= |ch.text| {
        if ch.repeatStart < 0 {
          channels[c] := ch.(nowPlaying := false, isAlive := false);
          return;
        }
        channels[c] := ch.(cursor := ch.repeatStart as nat);
      }
      total', full', again, halted := Feed(c, total, full);
    }

    /** Every live channel has at least 100 ms queued in this call. */
    method Buffered(totals: seq<uint16>, full: seq<bool>) returns (enough: bool)
      requires Valid() && |totals| == NumChannels && |full| == NumChannels
      ensures enough <==> BufferedAll(Lanes(totals, full))
    {
      enough := true;
      var k := 0;
      while k < NumChannels
        invariant 0 <= k <= NumChannels
        invariant enough <==> forall j :: 0 <= j < k && channels[j].isAlive ==> totals[j] >= BufferingMSec
      {
        if channels[k].isAlive && totals[k] < BufferingMSec {
          enough := false;
          break;
        }
        k := k + 1;
      }
    }

    /** Every live channel found its queue full in this call. */
    method AllFull(totals: seq<uint16>, full: seq<bool>) returns (enough: bool)
      requires Valid() && |totals| == NumChannels && |full| == NumChannels
      ensures enough <==> FullAll(Lanes(totals, full))
    {
      enough := true;
      var k := 0;
      while k < NumChannels
        invariant 0 <= k <= NumChannels
        invariant enough <==> forall j :: 0 <= j < k && channels[j].isAlive ==> full[j]
      {
        if channels[k].isAlive && !full[k] {
          enough := false;
        }
        k := k + 1;
      }
    }

    /** The four lanes of the engine, given the totals and full flags of
        the call in progress. */
    ghost function Lanes(totals: seq<uint16>, full: seq<bool>): (ls: seq<Lane>)
      requires Valid() && |totals| == NumChannels && |full| == NumChannels
      reads this, channels, sound, sound.soundBuf
      ensures Scheduled(ls)
    {
      LanesOf(channels[..], sound.queues, totals, full)
    }

    /** One round of `t2kUpdateMML` over the four channels. It stops early
        when a command traps. The lanes, `again` and `halted` are what
        `RoundFrom` says. */
    method Round(totals: seq<uint16>, full: seq<bool>) returns (totals': seq<uint16>, full': seq<bool>, again: bool, halted: bool)
      requires Valid() && |totals| == NumChannels && |full| == NumChannels
      modifies channels, sound
      ensures Valid() && |totals'| == NumChannels && |full'| == NumChannels
      ensures Rounded(Lanes(totals', full'), again, halted) == RoundFrom(old(Lanes(totals, full)), freq[..], 0, false)
    {
      ghost var goal := RoundFrom(Lanes(totals, full), freq[..], 0, false);
      totals', full', again, halted := totals, full, false, false;
      var k := 0;
      while k < NumChannels
        invariant 0 <= k <= NumChannels
        invariant Valid() && |totals'| == NumChannels && |full'| == NumChannels
        invariant RoundFrom(Lanes(totals', full'), freq[..], k, again) == goal
      {
        ghost var ls := Lanes(totals', full');
        RoundStep(ls, freq[..], k, again, ServiceOn(ls[k], freq[..]));
        var h;
        totals', full', again, h := Slot(k, totals', full', again);
        if h {
          return totals', full', again, true;
        }
        k := k + 1;
      }
    }

    /** Channel k's turn within a round: its lane becomes what `ServiceOn`
        says (its total and full flag are kept when it traps), and `again`
        records a queued packet. */
    method Slot(k: nat, totals: seq<uint16>, full: seq<bool>, again: bool) returns (totals': seq<uint16>, full': seq<bool>, again': bool, halted: bool)
      requires Valid() && k < NumChannels && |totals| == NumChannels && |full| == NumChannels
      modifies channels, sound
      ensures Valid() && |totals'| == NumChannels && |full'| == NumChannels
      ensures var t := ServiceOn(old(Lanes(totals, full))[k], freq[..]);
        Lanes(totals', full') == old(Lanes(totals, full))[k := t.lane] && again' == (again || t.again) && halted == t.halted
    {
      ghost var ls := Lanes(totals, full);
      ghost var turn := ServiceOn(ls[k], freq[..]);
      var t, f, a, h := Service(k, totals[k], full[k]);
      if h {
        assert Lanes(totals, full) == ls[k := turn.lane];
        return totals, full, again, true;
      }
      totals', full', again', halted := totals[k := t], full[k := f], again || a, false;
      assert Lanes(totals', full') == ls[k := turn.lane];
    }

    /** `t2kUpdateMML`: rounds over the four channels while some packet was
        queued, until every live channel has 100 ms queued or every live
        channel's queue is found full; a trap ends it with true. The channels,
        the queues and the result are what `UpdateFrom` says, starting from
        zero totals and no full queue. */
    method UpdateMml() returns (halted: bool)
      requires Valid()
      modifies channels, sound
      ensures Valid()
      ensures var u := UpdateFrom(old(Lanes(Zeros, NoneFull)), freq[..]);
        halted == u.halted && forall k :: 0 <= k < NumChannels ==> channels[k] == u.lanes[k].ch && sound.queues[k] == u.lanes[k].q
    {
      var totals: seq<uint16> := Zeros;
      var full := NoneFull;
      ghost var goal := UpdateFrom(Lanes(totals, full), freq[..]);
      ghost var last: Rounded;
      while true
        invariant Valid() && |totals| == NumChannels && |full| == NumChannels
        invariant UpdateFrom(Lanes(totals, full), freq[..]) == goal
        decreases Room(Lanes(totals, full))
      {
        ghost var ls := Lanes(totals, full);
        var again, h;
        totals, full, again, h := Round(totals, full);
        last := Rounded(Lanes(totals, full), again, h);
        UpdateStep(ls, freq[..], last);
        halted := h;
        if h || !again {
          break;
        }
        var enough := Buffered(totals, full);
        if enough {
          break;
        }
        enough := AllFull(totals, full);
        if enough {
          break;
        }
      }
      assert last == goal;
    }

    /** `t2kPlayMML`: channel c starts over with the text up to its
        terminator; its queue is emptied and pre-filled by `registerMML`,
        and it is then playing. A channel past the last one is refused. */
    method PlayMml(c: uint8, text: string, fuel: nat) returns (ok: bool)
      requires Valid()
      modifies channels, sound, sound.toneInfo
      ensures Valid()
      ensures ok <==> c < NumChannels
      ensures !ok ==> channels[..] == old(channels[..]) && sound.queues == old(sound.queues)
      ensures ok ==> channels[c].text == text[..StrLen(text)] && channels[c].isAlive
                     && channels[c].nowPlaying && channels[c].readyToPlay
                     && sound.toneInfo[c].isAlive && !sound.quiet
      ensures ok ==> var g := RegisterAll(InitChannel(text[..StrLen(text)]), [], freq[..], fuel);
                     channels[c] == g.ch.(nowPlaying := true, readyToPlay := true) && sound.queues[c] == g.q
      ensures forall k :: 0 <= k < NumChannels && k != c as int ==>
                channels[k] == old(channels[k]) && sound.queues[k] == old(sound.queues[k])
    {
      if c >= NumChannels {
        return false;
      }
      channels[c] := InitChannel(text[..StrLen(text)]);
      var cleared := sound.ClearToneSeq(c);
      var registered := RegisterMml(c as nat, fuel);
      channels[c] := channels[c].(nowPlaying := true, readyToPlay := true);
      var started := sound.StartToneSeq(c);
      return true;
    }

    /** `t2kStopMML`: channel c stops and its queue is emptied. */
    method StopMml(c: uint8) returns (ok: bool)
      requires Valid()
      modifies channels, sound, sound.toneInfo
      ensures Valid()
      ensures ok <==> c < NumChannels
      ensures !ok ==> channels[..] == old(channels[..]) && sound.queues == old(sound.queues)
      ensures ok ==> channels[..] == old(channels[..])[c := old(channels[c]).(isAlive := false)]
                     && sound.queues == old(sound.queues)[c := []] && !sound.toneInfo[c].isAlive
                     && (sound.quiet <==> forall k :: 0 <= k < NumChannels ==> !sound.toneInfo[k].isAlive)
      ensures forall k :: 0 <= k < NumChannels && k != c as int ==> sound.toneInfo[k] == old(sound.toneInfo[k])
    {
      if c >= NumChannels {
        return false;
      }
      channels[c] := channels[c].(isAlive := false);
      var cleared := sound.ClearToneSeq(c);
      return true;
    }

    /** `t2kStopMMLs`: every channel stops, every queue is empty and the
        sound core is quiet. */
    method StopMmls()
      requires Valid()
      modifies channels, sound, sound.toneInfo
      ensures Valid()
      ensures forall k :: 0 <= k < NumChannels ==>
                channels[k] == old(channels[k]).(isAlive := false) && sound.queues[k] == []
                && !sound.toneInfo[k].isAlive
      ensures sound.quiet
    {
      var i := 0;
      while i < NumChannels
        invariant 0 <= i <= NumChannels
        invariant Valid()
        invariant forall k :: 0 <= k < i ==>
                    channels[k] == old(channels[k]).(isAlive := false) && sound.queues[k] == []
                    && !sound.toneInfo[k].isAlive
        invariant forall k :: i <= k < NumChannels ==> channels[k] == old(channels[k])
        invariant i > 0 ==> (sound.quiet <==> forall k :: 0 <= k < NumChannels ==> !sound.toneInfo[k].isAlive)
      {
        var ok := StopMml(i as uint8);
        i := i + 1;
      }
    }
  }
}
