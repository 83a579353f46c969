/** The sequencer of led.c as the source keeps it: static variables updated in
    place and a fixed array of 50 record slots.  Every method is proved against
    the state machine of module LedSpec: `Model()` reads the fields back as a
    `LedSpec.State`, and `outputs` logs the display and LED writes in order. */
module Led {
  import opened LedSpec

  class Sequencer {
    const recordedSequence: array<RecordStep>
    var recordCount: nat
    var isRecording: bool
    var isPlayingRecord: bool
    var recordStartTime: u32
    var lastRecordTime: u32
    var currentNote: nat
    var tempo: nat
    var playing: bool
    var lastSwitchState: u32
    var noteCounter: nat
    var playbackIndex: nat
    var playbackStartTime: u32

    /** Every write to the display and LED ports so far. */
    ghost var outputs: seq<Output>

    ghost function Model(): State
      reads this, recordedSequence
    {
      State(recordedSequence[..], recordCount, isRecording, isPlayingRecord,
            recordStartTime, lastRecordTime, currentNote, tempo, playing,
            lastSwitchState, noteCounter, playbackIndex, playbackStartTime)
    }

    ghost predicate Valid()
      reads this, recordedSequence
    {
      recordedSequence.Length == MaxRecordSteps && Inv(Model())
    }

    /** The statics at load time, and the display enable at the top of led_sample. */
    constructor ()
      ensures Valid() && fresh(recordedSequence)
      ensures Model() == Init()
      ensures outputs == [SegEnable(0xFF)]
    {
      recordedSequence := new RecordStep[MaxRecordSteps](_ => RecordStep(0, 0, 0));
      recordCount, isRecording, isPlayingRecord := 0, false, false;
      recordStartTime, lastRecordTime := 0, 0;
      currentNote, tempo, playing := 0, 4, false;
      lastSwitchState, noteCounter := 0, 0;
      playbackIndex, playbackStartTime := 0, 0;
      outputs := [SegEnable(0xFF)];
      new;
      assert recordedSequence[..] == Init().buf;
    }

    /** The alternating LED acknowledgment; the delays between writes are not modelled. */
    method Blink(cycles: nat, first: nat, second: nat)
      modifies this`outputs
      ensures outputs == old(outputs) + BlinkWrites(cycles, first, second)
    {
      for i := 0 to cycles
        invariant outputs == old(outputs) + BlinkWrites(i, first, second)
      {
        outputs := outputs + [Leds(first)];
        outputs := outputs + [Leds(second)];
      }
    }

    /** Store `step` in slot `recordCount`, count it and stamp the time. */
    method Record(step: RecordStep, now: u32)
      requires Valid() && Capturing(Model()) && ValidStep(step)
      modifies this, recordedSequence
      ensures Valid()
      ensures Model() == Append(old(Model()), step, now)
      ensures outputs == old(outputs)
    {
      recordedSequence[recordCount] := step;
      recordCount := recordCount + 1;
      lastRecordTime := now;
      assert recordedSequence[..] == old(Model()).buf[old(recordCount) := step];
    }

    /** Switches 0-2. */
    method SelectNote(last: u32, switchState: u32, now: u32)
      requires Valid()
      modifies this, recordedSequence
      ensures Valid()
      ensures Model() == NoteSwitch(old(Model()), last, switchState, now).st
      ensures outputs == old(outputs) + NoteSwitch(old(Model()), last, switchState, now).out
    {
      if Changed(last, switchState, NoteBits) {
        var newNote := NoteOf(switchState);
        if isRecording && recordCount < MaxRecordSteps {
          var duration: u32 := 0;
          if recordCount > 0 {
            duration := Elapsed(now, lastRecordTime);
          }
          Record(RecordStep(newNote, tempo, duration), now);
          outputs := outputs + [Leds(CaptureLed(newNote))];
        } else {
          currentNote := newNote;
          outputs := outputs + [Display(NoteDisplay(currentNote)), Leds(NoteLed(currentNote))];
        }
      }
    }

    /** Switch 3. */
    method TogglePlay(last: u32, switchState: u32)
      requires Valid()
      modifies this
      ensures Valid()
      ensures Model() == PlaySwitch(old(Model()), last, switchState).st
      ensures outputs == old(outputs) + PlaySwitch(old(Model()), last, switchState).out
    {
      if Changed(last, switchState, PlayBit) {
        if Field(switchState, PlayBit) != 0 {
          if !isRecording {
            playing := !playing;
            if playing {
              outputs := outputs + [Leds(0xFFFF)];
            } else {
              outputs := outputs + [Leds(0x0000)];
            }
          }
        }
      }
    }

    /** Switches 4-6. */
    method SetTempo(last: u32, switchState: u32, now: u32)
      requires Valid()
      modifies this, recordedSequence
      ensures Valid()
      ensures Model() == TempoSwitch(old(Model()), last, switchState, now).st
      ensures outputs == old(outputs) + TempoSwitch(old(Model()), last, switchState, now).out
    {
      if Changed(last, switchState, TempoBits) {
        var newTempo := TempoOf(switchState);
        if isRecording && recordCount < MaxRecordSteps {
          var duration := Elapsed(now, lastRecordTime);
          Record(RecordStep(currentNote, newTempo, duration), now);
        } else {
          tempo := newTempo;
          outputs := outputs + [Display(TempoDisplay(tempo))];
        }
      }
    }

    /** Switch 7. */
    method ToggleRecord(last: u32, switchState: u32, now: u32)
      requires Valid()
      modifies this
      ensures Valid()
      ensures Model() == RecordSwitch(old(Model()), last, switchState, now).st
      ensures outputs == old(outputs) + RecordSwitch(old(Model()), last, switchState, now).out
    {
      if Changed(last, switchState, RecordBit) {
        if Field(switchState, RecordBit) != 0 {
          if !isRecording && !isPlayingRecord {
            isRecording := true;
            recordCount := 0;
            recordStartTime := now;
            lastRecordTime := now;
            Blink(3, 0xFF00, 0x00FF);
            outputs := outputs + [Display(TempoDisplay(0x0E))];
          } else if isRecording {
            isRecording := false;
            Blink(5, 0xAAAA, 0x5555);
            outputs := outputs + [Display(TempoDisplay(recordCount))];
          }
        }
      }
    }

    /** Switch 8. */
    method TogglePlayback(last: u32, switchState: u32, now: u32)
      requires Valid()
      modifies this
      ensures Valid()
      ensures Model() == PlaybackSwitch(old(Model()), last, switchState, now).st
      ensures outputs == old(outputs) + PlaybackSwitch(old(Model()), last, switchState, now).out
    {
      if Changed(last, switchState, PlaybackBit) {
        if Field(switchState, PlaybackBit) != 0 {
          if recordCount > 0 && !isRecording {
            isPlayingRecord := !isPlayingRecord;
            if isPlayingRecord {
              playbackIndex := 0;
              playbackStartTime := now;
              outputs := outputs + [Leds(0x0F0F)];
            } else {
              outputs := outputs + [Leds(0x0000)];
            }
          }
        }
      }
    }

    /** The note, play/pause and tempo handlers. */
    method HandleLiveSwitches(last: u32, switchState: u32, now: u32)
      requires Valid()
      modifies this, recordedSequence
      ensures Valid()
      ensures Model() == LiveSwitches(old(Model()), last, switchState, now).st
      ensures outputs == old(outputs) + LiveSwitches(old(Model()), last, switchState, now).out
    {
      SelectNote(last, switchState, now);
      TogglePlay(last, switchState);
      SetTempo(last, switchState, now);
    }

    /** The record and playback toggles. */
    method HandleModeSwitches(last: u32, switchState: u32, now: u32)
      requires Valid()
      modifies this
      ensures Valid()
      ensures Model() == ModeSwitches(old(Model()), last, switchState, now).st
      ensures outputs == old(outputs) + ModeSwitches(old(Model()), last, switchState, now).out
    {
      ToggleRecord(last, switchState, now);
      TogglePlayback(last, switchState, now);
    }

    /** Keep the sampled word for the next pass's edge detection. */
    method RememberSwitches(switchState: u32)
      requires Valid()
      modifies this`lastSwitchState
      ensures Valid()
      ensures Model() == old(Model()).(lastSwitch := switchState)
    {
      lastSwitchState := switchState;
    }

    /** Edge detection: the handlers run only on a changed switch word. */
    method HandleSwitches(switchState: u32, now: u32)
      requires Valid()
      modifies this, recordedSequence
      ensures Valid()
      ensures Model() == Switches(old(Model()), switchState, now).st
      ensures outputs == old(outputs) + Switches(old(Model()), switchState, now).out
    {
      if switchState != lastSwitchState {
        var last := lastSwitchState;
        ghost var s, log := Model(), outputs;
        ghost var live := LiveSwitches(s, last, switchState, now);
        HandleLiveSwitches(last, switchState, now);
        ghost var mode := ModeSwitches(live.st, last, switchState, now);
        HandleModeSwitches(last, switchState, now);
        RememberSwitches(switchState);
        SwitchesOnChange(s, switchState, now, live, mode);
        LogAssoc(log, live.out, mode.out);
      }
    }

    /** The playback driver. */
    method AdvancePlayback(now: u32)
      requires Valid() && isPlayingRecord
      modifies this
      ensures Valid()
      ensures Model() == PlaybackDriver(old(Model()), now).st
      ensures outputs == old(outputs) + PlaybackDriver(old(Model()), now).out
    {
      if playbackIndex < recordCount {
        var step := recordedSequence[playbackIndex];
        var elapsed := Elapsed(now, playbackStartTime);
        if elapsed >= step.duration || playbackIndex == 0 {
          currentNote := step.note;
          tempo := step.tempo;
          outputs := outputs + [Display(StepDisplay(step)), Leds(StepLed(step))];
          playbackIndex := playbackIndex + 1;
          playbackStartTime := now;
        }
      } else {
        playbackIndex := 0;
        playbackStartTime := now;
      }
    }

    /** The autoplay driver. */
    method AdvanceAutoplay()
      requires Valid()
      modifies this
      ensures Valid()
      ensures Model() == Autoplay(old(Model())).st
      ensures outputs == old(outputs) + Autoplay(old(Model())).out
    {
      noteCounter := noteCounter + 1;
      if noteCounter >= AutoplayBase / tempo {
        outputs := outputs + ToneWrites(currentNote);
        noteCounter := 0;
        currentNote := (currentNote + 1) % 8;
      }
    }

    /** The playback driver, or else the autoplay driver. */
    method Drive(now: u32)
      requires Valid()
      modifies this
      ensures Valid()
      ensures Model() == Drivers(old(Model()), now).st
      ensures outputs == old(outputs) + Drivers(old(Model()), now).out
    {
      if isPlayingRecord && recordCount > 0 {
        AdvancePlayback(now);
      } else if playing && !isRecording {
        AdvanceAutoplay();
      }
    }

    /** One pass of the `while (1)` body of led_sample, without its final delay. */
    method Tick(switchState: u32, now: u32)
      requires Valid()
      modifies this, recordedSequence
      ensures Valid()
      ensures Model() == Step(old(Model()), switchState, now).st
      ensures outputs == old(outputs) + Step(old(Model()), switchState, now).out
    {
      ghost var log, s := outputs, Model();
      ghost var h := Switches(s, switchState, now);
      HandleSwitches(switchState, now);
      ghost var d := Drivers(h.st, now);
      Drive(now);
      StepUnfold(s, switchState, now, h, d);
      LogAssoc(log, h.out, d.out);
    }

    /** terminate_led. */
    method Terminate()
      requires Valid()
      modifies this`recordCount, this`isRecording, this`isPlayingRecord
      ensures Valid()
      ensures Model() == Terminated(old(Model()))
    {
      recordCount := 0;
      isRecording := false;
      isPlayingRecord := false;
    }
  }
}
