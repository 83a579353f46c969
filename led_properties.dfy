/** Properties of runs of the sequencer: what holds over any finite sequence of
    passes of the control loop, and the behaviour on concrete switch scenarios. */
module LedProperties {
  import opened LedSpec

  // ------------------------------------------------------------ guards

  /** A switch group counts as changed only when the switch word changed. */
  lemma ChangedOnlyOnNewWord(last: u32, sw: u32, g: Group)
    ensures Changed(last, sw, g) ==> sw != last
  {
  }

  /** For the one-bit groups (switches 3, 7 and 8) the handlers fire exactly on
      a 0 to 1 edge; a release is ignored. */
  lemma RisingIsZeroToOne(last: u32, sw: u32, g: Group)
    requires g != NoteBits && g != TempoBits
    ensures Rising(last, sw, g) <==> Field(last, g) == 0 && Field(sw, g) == 1
  {
  }

  /** When a capture is made the slot `recorded_sequence[record_count]` exists
      and playback is off. */
  lemma CaptureSlotInBounds(s: State)
    requires Inv(s) && Capturing(s)
    ensures s.count < |s.buf| && !s.playingRecord
  {
  }

  /** The first step of a recording fires at once; any step that fires is a
      recorded one. */
  lemma DueBounds(s: State, now: u32)
    requires Inv(s)
    ensures Due(s, now) ==> s.playbackIndex < s.count <= |s.buf| && ValidStep(s.buf[s.playbackIndex])
    ensures 0 == s.playbackIndex < s.count ==> Due(s, now)
  {
  }

  /** In every state of the invariant the frequency lookup `notes[current_note]`
      is in range and the autoplay period `500 / tempo` is between 62 and 500
      passes. */
  lemma InvBoundsAutoplay(s: State)
    requires Inv(s)
    ensures s.note < |Notes|
    ensures 62 <= AutoplayBase / s.tempo <= AutoplayBase
  {
    var t := s.tempo;
    assert t == 1 || t == 2 || t == 3 || t == 4 || t == 5 || t == 6 || t == 7 || t == 8;
  }

  /** Running `a` and then `b` is running `a + b`. */
  lemma {:induction false} RunConcat(s: State, a: seq<Input>, b: seq<Input>)
    requires Inv(s)
    ensures Run(s, a + b) == Run(Run(s, a), b)
    decreases |a|
  {
    if a != [] {
      assert (a + b)[0] == a[0];
      assert (a + b)[1..] == a[1..] + b;
      RunConcat(Step(s, a[0].switches, a[0].now).st, a[1..], b);
    } else {
      assert a + b == b;
    }
  }

  /** In every state reachable from the load-time statics, whatever passes and
      terminate_led calls came in between, recording and playback exclude each
      other, playback has something to play, the buffer and the cursor stay in
      bounds and every table lookup and division is defined. */
  lemma ReachableStatesSafe(evs: seq<Event>)
    ensures var r := Interleaved(Init(), evs);
      && !(r.recording && r.playingRecord)
      && (r.playingRecord ==> 0 < r.count && r.playbackIndex <= r.count)
      && r.count <= MaxRecordSteps
      && r.note < |Notes| && 1 <= r.tempo <= 8
      && forall i :: 0 <= i < r.count ==> r.buf[i].note < 8 && 1 <= r.buf[i].tempo <= 8
  {
    var r := Interleaved(Init(), evs);
    assert Inv(r);
  }

  /** The events of a run in which terminate_led is never called. */
  function Passes(ticks: seq<Input>): (evs: seq<Event>)
    ensures |evs| == |ticks|
    ensures forall k :: 0 <= k < |ticks| ==> evs[k] == Pass(ticks[k])
  {
    seq(|ticks|, k requires 0 <= k < |ticks| => Pass(ticks[k]))
  }

  /** Without terminate_led calls, an interleaved run is a plain run of passes. */
  lemma {:induction false} PassesOnlyIsRun(s: State, ticks: seq<Input>)
    requires Inv(s)
    ensures Interleaved(s, Passes(ticks)) == Run(s, ticks)
    decreases |ticks|
  {
    if ticks != [] {
      var s1 := Step(s, ticks[0].switches, ticks[0].now).st;
      assert Passes(ticks)[1..] == Passes(ticks[1..]);
      PassesOnlyIsRun(s1, ticks[1..]);
    }
  }

  // ------------------------------------------------------------ recording

  /** While switch 7 is left alone, recording neither starts nor stops and the
      recorded steps are only ever added to, never overwritten. */
  lemma {:induction false} RecordingAppendOnly(s: State, ticks: seq<Input>)
    requires Inv(s)
    requires forall k :: 0 <= k < |ticks| ==> Field(ticks[k].switches, RecordBit) == Field(s.lastSwitch, RecordBit)
    ensures Run(s, ticks).recording == s.recording
    ensures Extends(s, Run(s, ticks))
    decreases |ticks|
  {
    if ticks != [] {
      var t := ticks[0];
      var s1 := Step(s, t.switches, t.now).st;
      RecordingAppendOnly(s1, ticks[1..]);
    }
  }

  // ------------------------------------------------------------ playback

  /** The playback driver replayed slot `slot` in the pass sampled at `at`. */
  datatype Firing = Firing(slot: nat, at: u32)

  /** The slot the playback driver fires in the pass `t` from `s`, if any. */
  function FiredAt(s: State, t: Input): seq<Firing>
    requires Inv(s)
  {
    var h := Switches(s, t.switches, t.now).st;
    if h.playingRecord && h.count > 0 && Due(h, t.now) then [Firing(h.playbackIndex, t.now)] else []
  }

  /** The slots the playback driver fires during a run, in order, with their times. */
  function Fired(s: State, ticks: seq<Input>): seq<Firing>
    requires Inv(s)
    decreases |ticks|
  {
    if ticks == [] then []
    else FiredAt(s, ticks[0]) + Fired(Step(s, ticks[0].switches, ticks[0].now).st, ticks[1..])
  }

  /** The slot after `i` in a recording of `n` steps, wrapping to 0. */
  function Succ(i: nat, n: nat): nat
  {
    if i + 1 == n then 0 else i + 1
  }

  /** `f` only names slots of a recording of `n` steps, each one the slot
      after its predecessor. */
  predicate Cycles(f: seq<Firing>, n: nat)
  {
    && (forall k :: 0 <= k < |f| ==> f[k].slot < n)
    && (forall k :: 0 < k < |f| ==> f[k].slot == Succ(f[k - 1].slot, n))
  }

  /** Every slot of `f` other than slot 0 fires no earlier than its recorded
      duration after the firing before it, or after `start` for the first. */
  predicate Paced(f: seq<Firing>, buf: seq<RecordStep>, start: u32)
  {
    && (forall k :: 0 <= k < |f| ==> f[k].slot < |buf|)
    && (|f| > 0 && f[0].slot > 0 ==> Elapsed(f[0].at, start) >= buf[f[0].slot].duration)
    && (forall k :: 0 < k < |f| && f[k].slot > 0 ==>
          Elapsed(f[k].at, f[k - 1].at) >= buf[f[k].slot].duration)
  }

  /** Prepending a firing to a cycle (a proof helper). */
  lemma ConsCycles(e: Firing, rest: seq<Firing>, n: nat)
    requires e.slot < n && Cycles(rest, n) && (|rest| > 0 ==> rest[0].slot == Succ(e.slot, n))
    ensures Cycles([e] + rest, n)
  {
    var f := [e] + rest;
    forall k | 0 < k < |f|
      ensures f[k].slot == Succ(f[k - 1].slot, n)
    {
      assert f[k] == rest[k - 1];
    }
  }

  /** Prepending a firing to a paced run (a proof helper). */
  lemma ConsPaced(e: Firing, rest: seq<Firing>, buf: seq<RecordStep>, start: u32)
    requires e.slot < |buf| && Paced(rest, buf, e.at)
    requires e.slot > 0 ==> Elapsed(e.at, start) >= buf[e.slot].duration
    ensures Paced([e] + rest, buf, start)
  {
    var f := [e] + rest;
    forall k | 0 < k < |f| && f[k].slot > 0
      ensures Elapsed(f[k].at, f[k - 1].at) >= buf[f[k].slot].duration
    {
      assert f[k] == rest[k - 1];
    }
  }

  /** A pass without switch changes during playback is a pass of the playback
      driver alone, and fires the slot under the cursor exactly when it is due. */
  lemma QuietPlaybackPass(s: State, t: Input)
    requires Inv(s) && s.playingRecord && t.switches == s.lastSwitch
    ensures Step(s, t.switches, t.now).st == PlaybackDriver(s, t.now).st
    ensures FiredAt(s, t) == if Due(s, t.now) then [Firing(s.playbackIndex, t.now)] else []
  {
    assert Switches(s, t.switches, t.now) == Effect(s, []);
  }

  /** Without switch changes, playback fires the recorded steps in their recorded
      order: first the slot under the cursor (slot 0 if the cursor is at the
      end), then each following slot, wrapping to slot 0 after the last one.
      The recording itself is left untouched. */
  lemma {:induction false} PlaybackLoopsInOrder(s: State, ticks: seq<Input>)
    requires Inv(s) && s.playingRecord
    requires forall k :: 0 <= k < |ticks| ==> ticks[k].switches == s.lastSwitch
    ensures var f := Fired(s, ticks);
      && Cycles(f, s.count)
      && (|f| > 0 ==> f[0].slot == if s.playbackIndex == s.count then 0 else s.playbackIndex)
    ensures var r := Run(s, ticks); r.playingRecord && r.count == s.count && r.buf == s.buf
    decreases |ticks|
  {
    if ticks != [] {
      var t := ticks[0];
      QuietPlaybackPass(s, t);
      var s1 := PlaybackDriver(s, t.now).st;
      assert forall k :: 0 <= k < |ticks[1..]| ==> ticks[1..][k] == ticks[k + 1];
      PlaybackLoopsInOrder(s1, ticks[1..]);
      var rest := Fired(s1, ticks[1..]);
      assert Run(s, ticks) == Run(s1, ticks[1..]);
      assert Fired(s, ticks) == FiredAt(s, t) + rest;
      if s.playbackIndex < s.count && Due(s, t.now) {
        ConsCycles(Firing(s.playbackIndex, t.now), rest, s.count);
      }
    }
  }

  /** Without switch changes, every replayed step other than the first of the
      recording fires no earlier than its recorded duration after the step
      before it fired (after the cursor's start time for the first firing of
      the run).  Slot 0 is exempt: `DueBounds` shows it fires as soon as the
      cursor reaches it. */
  lemma {:induction false} PlaybackPaced(s: State, ticks: seq<Input>)
    requires Inv(s) && s.playingRecord
    requires forall k :: 0 <= k < |ticks| ==> ticks[k].switches == s.lastSwitch
    ensures Paced(Fired(s, ticks), s.buf, s.playbackStart)
    decreases |ticks|
  {
    if ticks != [] {
      var t := ticks[0];
      QuietPlaybackPass(s, t);
      var s1 := PlaybackDriver(s, t.now).st;
      assert forall k :: 0 <= k < |ticks[1..]| ==> ticks[1..][k] == ticks[k + 1];
      PlaybackPaced(s1, ticks[1..]);
      var rest := Fired(s1, ticks[1..]);
      assert Fired(s, ticks) == FiredAt(s, t) + rest;
      if Due(s, t.now) {
        ConsPaced(Firing(s.playbackIndex, t.now), rest, s.buf, s.playbackStart);
      } else if s.playbackIndex == s.count {
        PlaybackLoopsInOrder(s1, ticks[1..]);
      }
    }
  }

  // ------------------------------------------------------------ scenarios

  /** Idle, switches 0-2 go from 000 to 101: the live note becomes 5, the
      display shows it and LED 5 lights; nothing is recorded. */
  lemma LiveNoteScenario(now: u32)
    ensures var e := Step(Init(), 0x5, now);
      && e.st.note == 5 && e.st.count == 0 && !e.st.recording
      && e.out == [Display(0x0211_0055), Leds(0x0020)]
  {
    var s := Init();
    var live := LiveSwitches(s, 0, 0x5, now);
    assert live.st == s.(note := 5);
    var mode := ModeSwitches(live.st, 0, 0x5, now);
    assert mode == Effect(live.st, []);
  }

  /** A state in which recording has just been started at time `t0`. */
  function RecordingFrom(t0: u32): (s: State)
    ensures Inv(s) && Capturing(s) && s.count == 0
    ensures s.lastSwitch == 0x80 && s.lastRecord == t0 && s.tempo == 4 && s.note == 0 && !s.playing
  {
    Init().(recording := true, recordStart := t0, lastRecord := t0, lastSwitch := 0x80)
  }

  /** Switch 7 rises while idle: recording starts with an empty buffer, the
      3-cycle blink and the "E" glyph. */
  lemma RecordStartScenario(now: u32)
    ensures var e := Step(Init(), 0x80, now);
      && e.st == RecordingFrom(now)
      && e.out == BlinkWrites(3, 0xFF00, 0x00FF) + [Display(0x0211_130E)]
  {
    var s := Init();
    var live := LiveSwitches(s, 0, 0x80, now);
    assert live == Effect(s, []);
  }

  /** Two switch words that agree above bit 2 but differ differ in switches 0-2
      and nowhere else. */
  lemma OnlyNoteBitsChanged(last: u32, sw: u32)
    requires sw != last && sw / 8 == last / 8
    ensures Changed(last, sw, NoteBits)
    ensures !Changed(last, sw, PlayBit) && !Changed(last, sw, TempoBits)
    ensures !Changed(last, sw, RecordBit) && !Changed(last, sw, PlaybackBit)
  {
    assert sw / 16 == (sw / 8) / 2 && last / 16 == (last / 8) / 2;
    assert sw / 128 == (sw / 8) / 16 && last / 128 == (last / 8) / 16;
    assert sw / 256 == (sw / 8) / 32 && last / 256 == (last / 8) / 32;
  }

  /** While recording with room left, a pass in which only switches 0-2 change
      appends exactly one step (the new note, the current tempo, and the time
      since the previous capture, or 0 for the first) and changes nothing else. */
  lemma CaptureNoteStep(s: State, sw: u32, now: u32)
    requires Inv(s) && Capturing(s)
    requires sw != s.lastSwitch && sw / 8 == s.lastSwitch / 8
    ensures var d := if s.count == 0 then 0 else Elapsed(now, s.lastRecord);
      Step(s, sw, now) == Effect(Append(s, RecordStep(NoteOf(sw), s.tempo, d), now).(lastSwitch := sw),
                                 [Leds(CaptureLed(NoteOf(sw)))])
  {
    OnlyNoteBitsChanged(s.lastSwitch, sw);
    var live := LiveSwitches(s, s.lastSwitch, sw, now);
    var mode := ModeSwitches(live.st, s.lastSwitch, sw, now);
    assert mode == Effect(live.st, []);
    SwitchesOnChange(s, sw, now, live, mode);
  }

  /** The fields of the pass in `CaptureNoteStep` that a run of captures reads. */
  lemma CapturedNote(s: State, sw: u32, now: u32)
    requires Inv(s) && Capturing(s)
    requires sw != s.lastSwitch && sw / 8 == s.lastSwitch / 8
    ensures var r := Step(s, sw, now).st;
      && Inv(r) && r.recording && r.count == s.count + 1 && r.lastSwitch == sw
      && r.note == s.note && r.tempo == s.tempo && r.playing == s.playing && r.lastRecord == now
      && r.buf[s.count] == RecordStep(NoteOf(sw), s.tempo, if s.count == 0 then 0 else Elapsed(now, s.lastRecord))
      && forall i :: 0 <= i < s.count ==> r.buf[i] == s.buf[i]
  {
    CaptureNoteStep(s, sw, now);
  }

  /** The steps of notes 2, 5 and 1 captured 0, 120 and 300 ms apart at tempo 4. */
  const ThreeSteps: seq<RecordStep> := [RecordStep(2, 4, 0), RecordStep(5, 4, 120), RecordStep(1, 4, 300)]

  /** A recording started at 1000 ms, then switches 0-2 set to 2, 5 and 1 at
      1000, 1120 and 1420 ms. */
  function ThreeNotesRecorded(): State
  {
    var s0 := RecordingFrom(1000);
    var s1 := Step(s0, 0x82, 1000).st;
    var s2 := Step(s1, 0x85, 1120).st;
    Step(s2, 0x81, 1420).st
  }

  /** The first two captures of `RecordThreeNotesScenario` (a proof helper). */
  lemma FirstTwoNotes(s0: State)
    requires Inv(s0) && Capturing(s0) && s0.count == 0 && s0.lastSwitch == 0x80
    requires s0.tempo == 4 && s0.note == 0 && !s0.playing
    ensures var s2 := Step(Step(s0, 0x82, 1000).st, 0x85, 1120).st;
      && Inv(s2) && Capturing(s2) && s2.count == 2 && s2.lastSwitch == 0x85 && s2.lastRecord == 1120
      && s2.tempo == 4 && s2.note == 0 && !s2.playing
      && s2.buf[0] == ThreeSteps[0] && s2.buf[1] == ThreeSteps[1]
  {
    CapturedNote(s0, 0x82, 1000);
    var s1 := Step(s0, 0x82, 1000).st;
    CapturedNote(s1, 0x85, 1120);
    assert Elapsed(1120, 1000) == 120;
  }

  /** The third capture of `RecordThreeNotesScenario` (a proof helper). */
  lemma ThirdNote(s2: State)
    requires Inv(s2) && Capturing(s2) && s2.count == 2 && s2.lastSwitch == 0x85 && s2.lastRecord == 1120
    requires s2.tempo == 4 && s2.note == 0 && !s2.playing
    requires s2.buf[0] == ThreeSteps[0] && s2.buf[1] == ThreeSteps[1]
    ensures var s3 := Step(s2, 0x81, 1420).st;
      && Inv(s3) && s3.count == 3 && s3.recording && !s3.playing && s3.note == 0 && s3.lastSwitch == 0x81
      && s3.buf[..3] == ThreeSteps
  {
    CapturedNote(s2, 0x81, 1420);
    var s3 := Step(s2, 0x81, 1420).st;
    assert Elapsed(1420, 1120) == 300;
    assert s3.buf[..3] == [s3.buf[0], s3.buf[1], s3.buf[2]];
  }

  /** While recording, notes 2, 5, 1 played 0, 120 and 300 ms apart are captured
      with durations 0, 120 and 300, and the live note stays where it was. */
  lemma RecordThreeNotesScenario()
    ensures var s3 := ThreeNotesRecorded();
      && Inv(s3) && s3.count == 3 && s3.recording && !s3.playing && s3.note == 0 && s3.lastSwitch == 0x81
      && s3.buf[..3] == ThreeSteps
  {
    var s0 := RecordingFrom(1000);
    FirstTwoNotes(s0);
    ThirdNote(Step(Step(s0, 0x82, 1000).st, 0x85, 1120).st);
  }

  /** Releasing switch 7 while recording the three steps changes nothing but
      the remembered switch word: only a rising edge counts. */
  lemma ReleaseRecordSwitch(s: State)
    requires Inv(s) && s.recording && s.lastSwitch == 0x81
    ensures Step(s, 0x01, 1500) == Effect(s.(lastSwitch := 0x01), [])
  {
    var live := LiveSwitches(s, 0x81, 0x01, 1500);
    assert live == Effect(s, []);
    var mode := ModeSwitches(s, 0x81, 0x01, 1500);
    assert mode == Effect(s, []);
    SwitchesOnChange(s, 0x01, 1500, live, mode);
  }

  /** The switch handlers of the pass in `PressRecordSwitchAgain` (a proof helper). */
  lemma StopRecordingSwitches(s: State)
    requires Inv(s) && s.recording && s.lastSwitch == 0x01
    ensures Switches(s, 0x81, 1600) ==
      Effect(s.(recording := false, lastSwitch := 0x81),
             BlinkWrites(5, 0xAAAA, 0x5555) + [Display(TempoDisplay(s.count))])
  {
    var live := LiveSwitches(s, 0x01, 0x81, 1600);
    assert live == Effect(s, []);
    var mode := ModeSwitches(s, 0x01, 0x81, 1600);
    assert mode == Effect(s.(recording := false), BlinkWrites(5, 0xAAAA, 0x5555) + [Display(TempoDisplay(s.count))]);
    SwitchesOnChange(s, 0x81, 1600, live, mode);
  }

  /** Raising switch 7 again stops the recording: the buffer and the count are
      kept, the blink of 5 cycles runs and the display shows the count (with
      autoplay paused, nothing else runs in that pass). */
  lemma PressRecordSwitchAgain(s: State)
    requires Inv(s) && s.recording && !s.playing && s.lastSwitch == 0x01
    ensures Step(s, 0x81, 1600) ==
      Effect(s.(recording := false, lastSwitch := 0x81),
             BlinkWrites(5, 0xAAAA, 0x5555) + [Display(TempoDisplay(s.count))])
  {
    StopRecordingSwitches(s);
    var h := Switches(s, 0x81, 1600);
    assert Drivers(h.st, 1600) == Effect(h.st, []);
    assert h.out + [] == h.out;
  }

  /** Passes with the switch word `w` held, sampled at `times`. */
  function Quiet(w: u32, times: seq<u32>): (r: seq<Input>)
    ensures |r| == |times|
    ensures forall k :: 0 <= k < |times| ==> r[k] == Input(w, times[k])
  {
    seq(|times|, k requires 0 <= k < |times| => Input(w, times[k]))
  }

  /** The sampling times of the replay scenario after switch 8 is raised. */
  const ReplayTimes: seq<u32> := [2119, 2120, 2419, 2420, 2421, 2422]

  /** The passes of the replay scenario: switch 8 raised at 2000 ms, then the
      switches left alone. */
  const ReplayTicks: seq<Input> := [Input(0x181, 2000)] + Quiet(0x181, ReplayTimes)

  /** The first pass of a run and the rest (a proof helper). */
  lemma FiredCons(s: State, t: Input, rest: seq<Input>)
    requires Inv(s)
    ensures Fired(s, [t] + rest) == FiredAt(s, t) + Fired(Step(s, t.switches, t.now).st, rest)
  {
    assert ([t] + rest)[1..] == rest;
  }

  /** The slots the playback driver alone fires when run at `times`. */
  function Replayed(s: State, times: seq<u32>): seq<Firing>
    requires Inv(s) && s.playingRecord
    decreases |times|
  {
    if times == [] then []
    else
      (if Due(s, times[0]) then [Firing(s.playbackIndex, times[0])] else []) +
      Replayed(PlaybackDriver(s, times[0]).st, times[1..])
  }

  /** During playback, a run of passes without switch changes fires exactly
      what the playback driver alone fires. */
  lemma {:induction false} QuietRunIsReplay(s: State, times: seq<u32>)
    requires Inv(s) && s.playingRecord
    ensures Fired(s, Quiet(s.lastSwitch, times)) == Replayed(s, times)
    decreases |times|
  {
    if times != [] {
      var ticks := Quiet(s.lastSwitch, times);
      QuietPlaybackPass(s, ticks[0]);
      var s1 := PlaybackDriver(s, times[0]).st;
      QuietRunIsReplay(s1, times[1..]);
      assert ticks[1..] == Quiet(s1.lastSwitch, times[1..]);
    }
  }

  /** Playback of the three steps after slot 0 fired at 2000 ms: slot 1 is not
      due at +119 ms but fires at +120, slot 2 is not due 299 ms later but fires
      at 300, the next pass wraps to slot 0 without firing, and the one after
      fires slot 0 at once. */
  lemma ReplayTail(s: State)
    requires Inv(s) && s.playingRecord && s.count == 3 && s.buf[..3] == ThreeSteps
    requires s.playbackIndex == 1 && s.playbackStart == 2000
    ensures Replayed(s, ReplayTimes) == [Firing(1, 2120), Firing(2, 2420), Firing(0, 2422)]
  {
    assert s.buf[1] == ThreeSteps[1] && s.buf[2] == ThreeSteps[2];
    var t := ReplayTimes;
    assert Elapsed(2119, 2000) == 119 && !Due(s, 2119);
    assert Replayed(s, t) == Replayed(s, t[1..]);
    assert Elapsed(2120, 2000) == 120 && Due(s, 2120);
    var sa := PlaybackDriver(s, 2120).st;
    assert Replayed(s, t[1..]) == [Firing(1, 2120)] + Replayed(sa, t[2..]);
    assert Elapsed(2419, 2120) == 299 && !Due(sa, 2419);
    assert Replayed(sa, t[2..]) == Replayed(sa, t[3..]);
    assert Elapsed(2420, 2120) == 300 && Due(sa, 2420);
    var sb := PlaybackDriver(sa, 2420).st;
    assert Replayed(sa, t[3..]) == [Firing(2, 2420)] + Replayed(sb, t[4..]);
    var sc := PlaybackDriver(sb, 2421).st;
    assert Replayed(sb, t[4..]) == Replayed(sc, t[5..]);
    assert Due(sc, 2422);
    assert Replayed(sc, t[5..]) == [Firing(0, 2422)] + Replayed(PlaybackDriver(sc, 2422).st, []);
  }

  /** Switch 8 raised at 2000 ms after the recording of the three steps was
      stopped: playback starts and slot 0 fires in the same pass. */
  lemma ReplayStart(s: State)
    requires Inv(s) && !s.recording && !s.playingRecord && s.count == 3 && s.lastSwitch == 0x81
    requires s.buf[..3] == ThreeSteps
    ensures Step(s, 0x181, 2000).st ==
      s.(playingRecord := true, playbackIndex := 1, playbackStart := 2000, note := 2, tempo := 4,
         lastSwitch := 0x181)
    ensures var s1 := Step(s, 0x181, 2000).st;
      && s1.playingRecord && s1.playbackIndex == 1 && s1.playbackStart == 2000
      && s1.count == 3 && s1.buf == s.buf && s1.lastSwitch == 0x181
    ensures FiredAt(s, Input(0x181, 2000)) == [Firing(0, 2000)]
  {
    assert s.buf[0] == ThreeSteps[0];
    var live := LiveSwitches(s, 0x81, 0x181, 2000);
    assert live == Effect(s, []);
    var mode := ModeSwitches(s, 0x81, 0x181, 2000);
    assert mode == Effect(s.(playingRecord := true, playbackIndex := 0, playbackStart := 2000), [Leds(0x0F0F)]);
    SwitchesOnChange(s, 0x181, 2000, live, mode);
  }

  /** The pass of `ReplayStart` at the head of a run (a proof helper). */
  lemma ReplayFirstPass(s: State, rest: seq<Input>)
    requires Inv(s) && !s.recording && !s.playingRecord && s.count == 3 && s.lastSwitch == 0x81
    requires s.buf[..3] == ThreeSteps
    ensures Fired(s, [Input(0x181, 2000)] + rest) == [Firing(0, 2000)] + Fired(Step(s, 0x181, 2000).st, rest)
  {
    ReplayStart(s);
    FiredCons(s, Input(0x181, 2000), rest);
  }

  /** The stopped recording of the three steps replayed by raising switch 8,
      with the switches then left alone. */
  lemma ReplayRun(s: State)
    requires Inv(s) && !s.recording && !s.playingRecord && s.count == 3 && s.lastSwitch == 0x81
    requires s.buf[..3] == ThreeSteps
    ensures Fired(s, ReplayTicks) == [Firing(0, 2000), Firing(1, 2120), Firing(2, 2420), Firing(0, 2422)]
  {
    var q := Quiet(0x181, ReplayTimes);
    ReplayStart(s);
    ReplayFirstPass(s, q);
    ReplayAfterStart(Step(s, 0x181, 2000).st);
  }

  /** Once the replay has started at 2000 ms, the quiet passes fire the
      remaining two steps on time and then wrap round to the first. */
  lemma ReplayAfterStart(s1: State)
    requires Inv(s1) && s1.playingRecord && s1.count == 3 && s1.lastSwitch == 0x181
    requires s1.buf[..3] == ThreeSteps && s1.playbackIndex == 1 && s1.playbackStart == 2000
    ensures Fired(s1, Quiet(0x181, ReplayTimes)) == [Firing(1, 2120), Firing(2, 2420), Firing(0, 2422)]
  {
    QuietRunIsReplay(s1, ReplayTimes);
    ReplayTail(s1);
  }

  /** A recording of the three steps (as `RecordThreeNotesScenario` leaves it)
      is stopped by releasing and raising switch 7 and replayed by raising
      switch 8, with the switches then left alone: slot 0 fires at once, slot 1
      not before +120 ms, slot 2 not before a further 300 ms, then playback
      wraps and slot 0 fires at once. */
  lemma ReplayThreeStepsScenario(s3: State)
    requires Inv(s3) && s3.count == 3 && s3.recording && !s3.playing && s3.lastSwitch == 0x81
    requires s3.buf[..3] == ThreeSteps
    ensures var s5 := Step(Step(s3, 0x01, 1500).st, 0x81, 1600).st;
      Fired(s5, ReplayTicks) == [Firing(0, 2000), Firing(1, 2120), Firing(2, 2420), Firing(0, 2422)]
  {
    ReleaseRecordSwitch(s3);
    var s4 := Step(s3, 0x01, 1500).st;
    PressRecordSwitchAgain(s4);
    ReplayRun(Step(s4, 0x81, 1600).st);
  }
}
