/** The record/playback sequencer of led.c as a pure state machine.

    One pass of the control loop is `Step`: edge detection and the five
    switch handlers (`Switches`), then the playback or the autoplay driver
    (`Drivers`).  Every handler returns the new state together with the
    display and LED writes it performs, in order. */
module LedSpec {

  /** Capacity of the record buffer (MAX_RECORD_STEPS). */
  const MaxRecordSteps: nat := 50

  const Two32: int := 0x1_0000_0000

  /** An `rt_uint32_t`: times in milliseconds and durations. */
  type u32 = x: int | 0 <= x < 0x1_0000_0000

  /** Frequencies (Hz) of the eight notes Do .. Si. */
  const Notes: seq<nat> := [262, 294, 330, 349, 392, 440, 494, 523]

  /** Autoplay advances after `AutoplayBase / tempo` passes. */
  const AutoplayBase: nat := 500

  /** The groups of the switch word the loop watches. */
  datatype Group =
    | NoteBits      // SW0-2, mask 0x0007
    | PlayBit       // SW3, mask 0x0008
    | TempoBits     // SW4-6, mask 0x0070
    | RecordBit     // SW7, mask 0x0080
    | PlaybackBit   // SW8, mask 0x0100

  /** One captured event (record_step_t). */
  datatype RecordStep = RecordStep(note: nat, tempo: nat, duration: u32)

  /** A write to one of the memory-mapped output ports. */
  datatype Output =
    | SegEnable(mask: nat)    // SegEn_ADDR
    | Display(word: nat)      // SegDig_ADDR
    | Leds(pattern: nat)      // GPIO_LEDs

  /** The file-scope statics and the statics of led_sample. */
  datatype State = State(
    buf: seq<RecordStep>,     // recorded_sequence, all 50 slots
    count: nat,               // record_count
    recording: bool,          // is_recording
    playingRecord: bool,      // is_playing_record
    recordStart: u32,         // record_start_time (written, never read)
    lastRecord: u32,          // last_record_time
    note: nat,                // current_note
    tempo: nat,               // tempo
    playing: bool,            // playing
    lastSwitch: u32,          // last_switch_state
    noteCounter: nat,         // note_counter
    playbackIndex: nat,       // playback_index
    playbackStart: u32)       // playback_start_time

  /** A new state and the port writes that produced it, in order. */
  datatype Effect = Effect(st: State, out: seq<Output>)

  /** One sample of the loop: the switch word and the clock. */
  datatype Input = Input(switches: u32, now: u32)

  /** `now - since` in `rt_uint32_t` arithmetic. */
  function Elapsed(now: u32, since: u32): (d: u32)
    ensures (since + d) % Two32 == now
    ensures since <= now ==> d == now - since
  {
    (now - since) % Two32
  }

  /** The bits of group `g` in the switch word `w`, shifted down: `(w >> lo) & mask`. */
  function Field(w: u32, g: Group): (v: nat)
    ensures g == NoteBits || g == TempoBits ==> v < 8
    ensures g != NoteBits && g != TempoBits ==> v < 2
  {
    match g
    case NoteBits => w % 8
    case PlayBit => (w / 8) % 2
    case TempoBits => (w / 16) % 8
    case RecordBit => (w / 128) % 2
    case PlaybackBit => (w / 256) % 2
  }

  /** The note selected by switches 0-2. */
  function NoteOf(sw: u32): (n: nat)
    ensures n < 8
  {
    Field(sw, NoteBits)
  }

  /** The tempo selected by switches 4-6. */
  function TempoOf(sw: u32): (t: nat)
    ensures 1 <= t <= 8
  {
    Field(sw, TempoBits) + 1
  }

  /** The frequency table lookup `notes[n]`. */
  function Frequency(n: nat): (f: nat)
    requires n < 8
    ensures 262 <= f <= 523
  {
    Notes[n]
  }

  /** `changed_bits & mask` is nonzero: some bit of group `g` differs between
      the previous switch word `last` and the new one `sw`. */
  predicate Changed(last: u32, sw: u32, g: Group)
  {
    Field(sw, g) != Field(last, g)
  }

  /** The one-bit group `g` changed in this pass and is now 1. */
  predicate Rising(last: u32, sw: u32, g: Group)
  {
    Changed(last, sw, g) && Field(sw, g) != 0
  }

  /** The guard under which a note or tempo change is captured. */
  predicate Capturing(s: State)
  {
    s.recording && s.count < MaxRecordSteps
  }

  predicate ValidStep(p: RecordStep)
  {
    p.note < 8 && 1 <= p.tempo <= 8
  }

  /** `t` keeps every step recorded in `s`, possibly with more after them. */
  predicate Extends(s: State, t: State)
  {
    s.count <= t.count && s.count <= |s.buf| == |t.buf|
    && forall i :: 0 <= i < s.count ==> t.buf[i] == s.buf[i]
  }

  /** What holds in every reachable state. */
  predicate Inv(s: State)
  {
    && |s.buf| == MaxRecordSteps
    && s.count <= MaxRecordSteps
    && !(s.recording && s.playingRecord)
    && (s.playingRecord ==> 0 < s.count && s.playbackIndex <= s.count)
    && s.playbackIndex <= MaxRecordSteps
    && s.note < 8
    && 1 <= s.tempo <= 8
    && s.noteCounter < AutoplayBase
    && forall i :: 0 <= i < s.count ==> ValidStep(s.buf[i])
  }

  /** The statics as the program loads them. */
  function Init(): (s: State)
    ensures Inv(s)
    ensures !s.recording && !s.playingRecord && !s.playing && s.count == 0
    ensures s.note == 0 && s.tempo == 4
  {
    State(seq(MaxRecordSteps, _ => RecordStep(0, 0, 0)), 0, false, false, 0, 0,
          0, 4, false, 0, 0, 0, 0)
  }

  // ---------------------------------------------------------------- outputs

  /* The words written to the ports are computed as the source computes them,
     with each `|` of two disjoint bit fields written as a sum; the lemmas of
     module LedWords check each of them against the bitwise expression. */

  /** `1 << n` for the eight notes. */
  const OneHot: seq<nat> := [0x01, 0x02, 0x04, 0x08, 0x10, 0x20, 0x40, 0x80]

  /** The LED of note `n`: `1 << n`. */
  function NoteLed(n: nat): nat
    requires n < 8
  {
    OneHot[n]
  }

  /** The LEDs while a note is captured: `0xF000 | (1 << n)`. */
  function CaptureLed(n: nat): nat
    requires n < 8
  {
    0xF000 + OneHot[n]
  }

  /** `0x02110000 | (n << 4) | n`: the note on the display. */
  function NoteDisplay(n: nat): nat
    requires n < 8
  {
    0x0211_0000 + n * 16 + n
  }

  /** `0x02111300 | v`: a tempo, a glyph or a step count on the display. */
  function TempoDisplay(v: nat): nat
    requires v < 256
  {
    0x0211_1300 + v
  }

  /** `0x02110000 | (note << 4) | tempo`: a replayed step on the display. */
  function StepDisplay(p: RecordStep): nat
    requires ValidStep(p)
  {
    0x0211_0000 + p.note * 16 + p.tempo
  }

  /** `(1 << note) | (tempo << 8)`: a replayed step on the LEDs. */
  function StepLed(p: RecordStep): nat
    requires ValidStep(p)
  {
    OneHot[p.note] + p.tempo * 256
  }

  /** The LED pattern and the display word autoplay writes for note `n`:
      `freq % 0xFFFF` and `0x02110000 | (freq & 0xFFFF)`. */
  function ToneWrites(n: nat): (r: seq<Output>)
    requires n < 8
    ensures r == [Leds(Notes[n]), Display(0x0211_0000 + Notes[n])]
  {
    var freq := Frequency(n);
    [Leds(freq % 0xFFFF), Display(0x0211_0000 + freq % 0x1_0000)]
  }

  /** The LED writes of a blink acknowledgment of `cycles` cycles. */
  function BlinkWrites(cycles: nat, first: nat, second: nat): (r: seq<Output>)
    ensures |r| == 2 * cycles
    ensures forall i :: 0 <= i < |r| ==> r[i] == Leds(if i % 2 == 0 then first else second)
  {
    if cycles == 0 then [] else BlinkWrites(cycles - 1, first, second) + [Leds(first), Leds(second)]
  }

  // ---------------------------------------------------------------- buffer

  /** Store `p` in slot `count` and advance the count. */
  function Append(s: State, p: RecordStep, now: u32): (r: State)
    requires Inv(s) && Capturing(s) && ValidStep(p)
    ensures Inv(r)
    ensures r.count == s.count + 1 && r.buf[s.count] == p
    ensures forall i :: 0 <= i < |s.buf| && i != s.count ==> r.buf[i] == s.buf[i]
    ensures r.lastRecord == now
    ensures r == s.(buf := r.buf, count := r.count, lastRecord := r.lastRecord)
  {
    s.(buf := s.buf[s.count := p], count := s.count + 1, lastRecord := now)
  }

  // ---------------------------------------------------------------- handlers

  /** Switches 0-2: capture the new note, or make it the live note. */
  function NoteSwitch(s: State, last: u32, sw: u32, now: u32): (r: Effect)
    requires Inv(s)
    ensures Inv(r.st)
    ensures Extends(s, r.st)
    ensures !Changed(last, sw, NoteBits) ==> r == Effect(s, [])
    ensures Changed(last, sw, NoteBits) && Capturing(s) ==>
      && r.st.note == s.note
      && r.st.count == s.count + 1
      && r.st.buf[s.count] == RecordStep(NoteOf(sw), s.tempo,
                                         if s.count == 0 then 0 else Elapsed(now, s.lastRecord))
      && (forall i :: 0 <= i < |s.buf| && i != s.count ==> r.st.buf[i] == s.buf[i])
      && r.st.lastRecord == now
      && r.out == [Leds(CaptureLed(NoteOf(sw)))]
    ensures Changed(last, sw, NoteBits) && !Capturing(s) ==>
      && r.st.note == NoteOf(sw)
      && r.st.count == s.count && r.st.buf == s.buf && r.st.lastRecord == s.lastRecord
      && r.out == [Display(NoteDisplay(r.st.note)), Leds(NoteLed(r.st.note))]
    ensures r.st == s.(note := r.st.note, buf := r.st.buf, count := r.st.count,
                       lastRecord := r.st.lastRecord)
  {
    if !Changed(last, sw, NoteBits) then Effect(s, [])
    else
      var newNote := NoteOf(sw);
      if s.recording && s.count < MaxRecordSteps then
        var duration := if s.count > 0 then Elapsed(now, s.lastRecord) else 0;
        Effect(Append(s, RecordStep(newNote, s.tempo, duration), now),
               [Leds(CaptureLed(newNote))])
      else
        Effect(s.(note := newNote), [Display(NoteDisplay(newNote)), Leds(NoteLed(newNote))])
  }

  /** Switch 3: on a rising edge, and not while recording, toggle autoplay. */
  function PlaySwitch(s: State, last: u32, sw: u32): (r: Effect)
    requires Inv(s)
    ensures Inv(r.st)
    ensures r.st.playing != s.playing <==> Rising(last, sw, PlayBit) && !s.recording
    ensures r.st == s.(playing := r.st.playing)
    ensures r.out == if r.st.playing == s.playing then []
                     else [Leds(if r.st.playing then 0xFFFF else 0x0000)]
  {
    if Changed(last, sw, PlayBit) && Field(sw, PlayBit) != 0 && !s.recording then
      var playing := !s.playing;
      Effect(s.(playing := playing), [Leds(if playing then 0xFFFF else 0x0000)])
    else
      Effect(s, [])
  }

  /** Switches 4-6: capture the new tempo, or make it the live tempo. */
  function TempoSwitch(s: State, last: u32, sw: u32, now: u32): (r: Effect)
    requires Inv(s)
    ensures Inv(r.st)
    ensures Extends(s, r.st)
    ensures !Changed(last, sw, TempoBits) ==> r == Effect(s, [])
    ensures Changed(last, sw, TempoBits) && Capturing(s) ==>
      && r.st.tempo == s.tempo
      && r.st.count == s.count + 1
      && r.st.buf[s.count] == RecordStep(s.note, TempoOf(sw), Elapsed(now, s.lastRecord))
      && (forall i :: 0 <= i < |s.buf| && i != s.count ==> r.st.buf[i] == s.buf[i])
      && r.st.lastRecord == now
      && r.out == []
    ensures Changed(last, sw, TempoBits) && !Capturing(s) ==>
      && r.st.tempo == TempoOf(sw)
      && r.st.count == s.count && r.st.buf == s.buf && r.st.lastRecord == s.lastRecord
      && r.out == [Display(TempoDisplay(r.st.tempo))]
    ensures r.st == s.(tempo := r.st.tempo, buf := r.st.buf, count := r.st.count,
                       lastRecord := r.st.lastRecord)
  {
    if !Changed(last, sw, TempoBits) then Effect(s, [])
    else
      var newTempo := TempoOf(sw);
      if s.recording && s.count < MaxRecordSteps then
        Effect(Append(s, RecordStep(s.note, newTempo, Elapsed(now, s.lastRecord)), now), [])
      else
        Effect(s.(tempo := newTempo), [Display(TempoDisplay(newTempo))])
  }

  /** Switch 7: on a rising edge start recording when idle, or stop it. */
  function RecordSwitch(s: State, last: u32, sw: u32, now: u32): (r: Effect)
    requires Inv(s)
    ensures Inv(r.st)
    ensures r.st.recording != s.recording <==> Rising(last, sw, RecordBit) && !s.playingRecord
    ensures r.st.recording == s.recording ==> r == Effect(s, [])
    ensures !s.recording && r.st.recording ==>
      && r.st == s.(recording := true, count := 0, recordStart := now, lastRecord := now)
      && r.out == BlinkWrites(3, 0xFF00, 0x00FF) + [Display(TempoDisplay(0x0E))]
    ensures s.recording && !r.st.recording ==>
      && r.st == s.(recording := false)
      && r.out == BlinkWrites(5, 0xAAAA, 0x5555) + [Display(TempoDisplay(s.count))]
  {
    if Changed(last, sw, RecordBit) && Field(sw, RecordBit) != 0 then
      if !s.recording && !s.playingRecord then
        Effect(s.(recording := true, count := 0, recordStart := now, lastRecord := now),
               BlinkWrites(3, 0xFF00, 0x00FF) + [Display(TempoDisplay(0x0E))])
      else if s.recording then
        Effect(s.(recording := false),
               BlinkWrites(5, 0xAAAA, 0x5555) + [Display(TempoDisplay(s.count))])
      else
        Effect(s, [])
    else
      Effect(s, [])
  }

  /** Switch 8: on a rising edge, with a recording and not recording, toggle playback. */
  function PlaybackSwitch(s: State, last: u32, sw: u32, now: u32): (r: Effect)
    requires Inv(s)
    ensures Inv(r.st)
    ensures r.st.playingRecord != s.playingRecord <==>
              Rising(last, sw, PlaybackBit) && s.count > 0 && !s.recording
    ensures r.st.playingRecord == s.playingRecord ==> r == Effect(s, [])
    ensures !s.playingRecord && r.st.playingRecord ==>
      && r.st == s.(playingRecord := true, playbackIndex := 0, playbackStart := now)
      && r.out == [Leds(0x0F0F)]
    ensures s.playingRecord && !r.st.playingRecord ==>
      r.st == s.(playingRecord := false) && r.out == [Leds(0x0000)]
  {
    if Changed(last, sw, PlaybackBit) && Field(sw, PlaybackBit) != 0 && s.count > 0 && !s.recording then
      if !s.playingRecord then
        Effect(s.(playingRecord := true, playbackIndex := 0, playbackStart := now), [Leds(0x0F0F)])
      else
        Effect(s.(playingRecord := false), [Leds(0x0000)])
    else
      Effect(s, [])
  }

  /** The note, play/pause and tempo handlers (switches 0-6), in source order. */
  function LiveSwitches(s: State, last: u32, sw: u32, now: u32): (r: Effect)
    requires Inv(s)
    ensures Inv(r.st)
    ensures Extends(s, r.st)
    ensures r.st.count > s.count ==> s.recording
    ensures r.st == s.(note := r.st.note, tempo := r.st.tempo, playing := r.st.playing,
                       buf := r.st.buf, count := r.st.count, lastRecord := r.st.lastRecord)
  {
    var e1 := NoteSwitch(s, last, sw, now);
    var e2 := PlaySwitch(e1.st, last, sw);
    var e3 := TempoSwitch(e2.st, last, sw, now);
    Effect(e3.st, e1.out + e2.out + e3.out)
  }

  /** The record and playback toggles (switches 7 and 8), in source order. */
  function ModeSwitches(s: State, last: u32, sw: u32, now: u32): (r: Effect)
    requires Inv(s)
    ensures Inv(r.st)
    ensures r.st.count == s.count || (!s.recording && r.st.recording && r.st.count == 0)
    ensures r.st.recording != s.recording ==> Rising(last, sw, RecordBit)
    ensures r.st == s.(recording := r.st.recording, count := r.st.count,
                       recordStart := r.st.recordStart, lastRecord := r.st.lastRecord,
                       playingRecord := r.st.playingRecord, playbackIndex := r.st.playbackIndex,
                       playbackStart := r.st.playbackStart)
  {
    var e4 := RecordSwitch(s, last, sw, now);
    var e5 := PlaybackSwitch(e4.st, last, sw, now);
    Effect(e5.st, e4.out + e5.out)
  }

  /** Edge detection: the handlers run only when the switch word changed, each
      seeing which of its bits changed since the previous word. */
  function Switches(s: State, sw: u32, now: u32): (r: Effect)
    requires Inv(s)
    ensures Inv(r.st)
    ensures sw == s.lastSwitch ==> r == Effect(s, [])
    ensures r.st.lastSwitch == sw
    ensures r.st.noteCounter == s.noteCounter
    ensures r.st.count > s.count ==> s.recording
    ensures r.st.recording != s.recording ==> Rising(s.lastSwitch, sw, RecordBit)
    ensures Extends(s, r.st) || (!s.recording && r.st.recording && r.st.count == 0)
  {
    if sw == s.lastSwitch then Effect(s, [])
    else
      var live := LiveSwitches(s, s.lastSwitch, sw, now);
      var mode := ModeSwitches(live.st, s.lastSwitch, sw, now);
      Effect(mode.st.(lastSwitch := sw), live.out + mode.out)
  }

  /** Regroups a log of writes (a proof helper). */
  lemma LogAssoc(log: seq<Output>, a: seq<Output>, b: seq<Output>)
    ensures log + a + b == log + (a + b)
  {
  }

  /** Unfolds `Switches` on a changed switch word (a proof helper). */
  lemma SwitchesOnChange(s: State, sw: u32, now: u32, live: Effect, mode: Effect)
    requires Inv(s) && sw != s.lastSwitch
    requires live == LiveSwitches(s, s.lastSwitch, sw, now)
    requires mode == ModeSwitches(live.st, s.lastSwitch, sw, now)
    ensures Switches(s, sw, now) == Effect(mode.st.(lastSwitch := sw), live.out + mode.out)
  {
  }

  // ---------------------------------------------------------------- drivers

  /** The step under the playback cursor is due. */
  predicate Due(s: State, now: u32)
    requires Inv(s)
  {
    s.playbackIndex < s.count
    && (Elapsed(now, s.playbackStart) >= s.buf[s.playbackIndex].duration || s.playbackIndex == 0)
  }

  /** Fire the step under the cursor when it is due; at the end, wrap to 0. */
  function PlaybackDriver(s: State, now: u32): (r: Effect)
    requires Inv(s) && s.playingRecord
    ensures Inv(r.st) && r.st.playingRecord
    ensures r.st.count == s.count && r.st.buf == s.buf && r.st.lastSwitch == s.lastSwitch
    ensures r.st == s.(note := r.st.note, tempo := r.st.tempo,
                       playbackIndex := r.st.playbackIndex, playbackStart := r.st.playbackStart)
    ensures s.playbackIndex == s.count ==>
      r.st.playbackIndex == 0 && r.st.playbackStart == now && r.st.note == s.note
      && r.st.tempo == s.tempo && r.out == []
    ensures s.playbackIndex < s.count && !Due(s, now) ==> r == Effect(s, [])
    ensures Due(s, now) ==>
      var p := s.buf[s.playbackIndex];
      && (s.playbackIndex == 0 || Elapsed(now, s.playbackStart) >= p.duration)
      && r.st.note == p.note && r.st.tempo == p.tempo
      && r.st.playbackIndex == s.playbackIndex + 1 && r.st.playbackStart == now
      && r.out == [Display(StepDisplay(p)), Leds(StepLed(p))]
  {
    if s.playbackIndex < s.count then
      var p := s.buf[s.playbackIndex];
      var elapsed := Elapsed(now, s.playbackStart);
      if elapsed >= p.duration || s.playbackIndex == 0 then
        Effect(s.(note := p.note, tempo := p.tempo,
                  playbackIndex := s.playbackIndex + 1, playbackStart := now),
               [Display(StepDisplay(p)), Leds(StepLed(p))])
      else
        Effect(s, [])
    else
      Effect(s.(playbackIndex := 0, playbackStart := now), [])
  }

  /** Count a pass; at the tempo's threshold play the note and move up the scale. */
  function Autoplay(s: State): (r: Effect)
    requires Inv(s)
    ensures Inv(r.st)
    ensures r.st == s.(note := r.st.note, noteCounter := r.st.noteCounter)
    ensures s.noteCounter + 1 < AutoplayBase / s.tempo ==>
      r == Effect(s.(noteCounter := s.noteCounter + 1), [])
    ensures s.noteCounter + 1 >= AutoplayBase / s.tempo ==>
      && r.st.noteCounter == 0
      && r.st.note == (s.note + 1) % 8
      && r.out == ToneWrites(s.note)
  {
    var counter := s.noteCounter + 1;
    if counter >= AutoplayBase / s.tempo then
      Effect(s.(noteCounter := 0, note := (s.note + 1) % 8), ToneWrites(s.note))
    else
      Effect(s.(noteCounter := counter), [])
  }

  /** The playback driver, or else the autoplay driver. */
  function Drivers(s: State, now: u32): (r: Effect)
    requires Inv(s)
    ensures Inv(r.st)
    ensures r.st == s.(note := r.st.note, tempo := r.st.tempo, noteCounter := r.st.noteCounter,
                       playbackIndex := r.st.playbackIndex, playbackStart := r.st.playbackStart)
    ensures s.playingRecord ==> r.st.noteCounter == s.noteCounter
    ensures !s.playingRecord ==> r.st.playbackIndex == s.playbackIndex && r.st.tempo == s.tempo
    ensures !s.playingRecord && !(s.playing && !s.recording) ==> r == Effect(s, [])
  {
    if s.playingRecord && s.count > 0 then PlaybackDriver(s, now)
    else if s.playing && !s.recording then Autoplay(s)
    else Effect(s, [])
  }

  /** One pass of the control loop. */
  function Step(s: State, sw: u32, now: u32): (r: Effect)
    requires Inv(s)
    ensures Inv(r.st)
    ensures r.st.lastSwitch == sw
    ensures sw == s.lastSwitch ==> r == Drivers(s, now)
    ensures r.st.count > s.count ==> s.recording
    ensures r.st.recording != s.recording ==> Rising(s.lastSwitch, sw, RecordBit)
    ensures Extends(s, r.st) || (!s.recording && r.st.recording && r.st.count == 0)
  {
    var h := Switches(s, sw, now);
    var d := Drivers(h.st, now);
    Effect(d.st, h.out + d.out)
  }

  /** Unfolds `Step` (a proof helper). */
  lemma StepUnfold(s: State, sw: u32, now: u32, h: Effect, d: Effect)
    requires Inv(s) && h == Switches(s, sw, now) && d == Drivers(h.st, now)
    ensures Step(s, sw, now) == Effect(d.st, h.out + d.out)
  {
  }

  /** terminate_led: clear the recording and both modes, and nothing else. */
  function Terminated(s: State): (r: State)
    ensures Inv(s) ==> Inv(r)
    ensures r.count == 0 && !r.recording && !r.playingRecord
    ensures r.(count := s.count, recording := s.recording, playingRecord := s.playingRecord) == s
  {
    s.(count := 0, recording := false, playingRecord := false)
  }

  /** The state after a finite sequence of passes. */
  function Run(s: State, ticks: seq<Input>): (r: State)
    requires Inv(s)
    ensures Inv(r)
    decreases |ticks|
  {
    if ticks == [] then s else Run(Step(s, ticks[0].switches, ticks[0].now).st, ticks[1..])
  }

  /** What can happen to the statics between two samples: a pass of the loop,
      or a call of terminate_led from another thread of control. */
  datatype Event = Pass(input: Input) | TerminateLed

  /** The state after passes with terminate_led calls interleaved. */
  function Interleaved(s: State, evs: seq<Event>): (r: State)
    requires Inv(s)
    ensures Inv(r)
    decreases |evs|
  {
    if evs == [] then s
    else
      var s1 := match evs[0]
        case Pass(t) => Step(s, t.switches, t.now).st
        case TerminateLed => Terminated(s);
      Interleaved(s1, evs[1..])
  }
}
