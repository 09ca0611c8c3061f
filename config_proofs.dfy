/**
 * The configuration setters and the status and playback queries: what each
 * writes, that the setters never reject their input, and the masks they
 * apply.
 */
module ConfigProofs {
  import opened Wrappers
  import opened Primitives
  import opened Registers
  import opened Bus
  import opened DriverSpec
  import opened Traffic
  import opened ModeProofs

  /** A whole-byte register write: one write; on success that byte changes and nothing else. */
  lemma WriteByteOutcome(s: DriverState, f: Faults, r: ByteRegister, value: Byte)
    ensures var run := WriteByte(s, f, r, value);
      && FollowsPlan(s, f, [Write(ByteVal(r, value))], run)
      && run.state.currentMode == s.currentMode
      && (run.result.Ok? ==> run.state.bus.regs == s.bus.regs.(bytes := WithByte(s.bus.regs.bytes, r, value)))
      && (run.result.Err? ==> run.state.bus.regs == s.bus.regs && run.result.error.I2c?)
  {
    WriteFollowsPlan(s, f, ByteVal(r, value));
  }

  /**
   * The timing-offset setters accept every `i8`: the only error is a bus
   * error, and on success the register holds the offset's two's-complement
   * byte, which reads back as the same offset.
   */
  lemma SetTimeOffsetOutcome(s: DriverState, f: Faults, r: ByteRegister, offset: I8)
    requires IsTimingOffset(r)
    ensures var run := SetTimeOffset(s, f, r, offset);
      && FollowsPlan(s, f, [Write(ByteVal(r, offset % 256))], run)
      && (run.result.Err? ==> run.result.error.I2c?)
      && (|s.bus.trace| !in f ==> run.result.Ok?)
      && (run.result.Ok? ==>
            && ByteOf(run.state.bus.regs.bytes, r) == offset % 256
            && AsI8(ByteOf(run.state.bus.regs.bytes, r)) == offset
            && (forall x | x != r :: ByteOf(run.state.bus.regs.bytes, x) == ByteOf(s.bus.regs.bytes, x)))
  {
    WriteByteOutcome(s, f, r, AsU8(offset));
    AsU8RoundTrip(offset);
  }

  /**
   * `set_feedback_control`: the loop gain and brake factor are stored as
   * given and the back-EMF gain masked to its two low bits, so it is below 4;
   * the actuator-type bit is kept.
   */
  lemma SetFeedbackControlOutcome(s: DriverState, f: Faults, loopGain: LoopGain, brakeFactor: FbBrakeFactor, bemfGain: Byte)
    ensures var r := SetFeedbackControl(s, f, loopGain, brakeFactor, bemfGain);
      var fb := s.bus.regs.feedback;
      && FollowsPlan(s, f, [Read(FeedbackControl), Write(FeedbackVal(fb.(loopGain := loopGain, fbBrakeFactor := brakeFactor, bemfGain := bemfGain % 4)))], r)
      && r.state.currentMode == s.currentMode
      && (r.result.Ok? ==>
            && r.state.bus.regs.feedback.bemfGain == bemfGain % 4 < 4
            && r.state.bus.regs == s.bus.regs.(feedback := fb.(loopGain := loopGain, fbBrakeFactor := brakeFactor, bemfGain := bemfGain % 4)))
      && (r.result.Err? ==> r.state.bus.regs == s.bus.regs)
  {
    ModifyRegOutcome(s, f, FeedbackFields(loopGain, brakeFactor, Low2(bemfGain)));
  }

  /** `set_actuator_type`: only the ERM/LRA bit of the feedback register changes. */
  lemma SetActuatorTypeOutcome(s: DriverState, f: Faults, isLra: bool)
    ensures var r := SetActuatorType(s, f, isLra);
      && FollowsPlan(s, f, [Read(FeedbackControl), Write(FeedbackVal(s.bus.regs.feedback.(nErmLra := isLra)))], r)
      && r.state.currentMode == s.currentMode
      && (r.result.Ok? ==> r.state.bus.regs == s.bus.regs.(feedback := s.bus.regs.feedback.(nErmLra := isLra)))
      && (r.result.Err? ==> r.state.bus.regs == s.bus.regs)
  {
    ModifyRegOutcome(s, f, NErmLraField(isLra));
  }

  /** `set_audio_to_vibe_control`: the filter and peak time change, the rest of the register is kept. */
  lemma SetAudioToVibeControlOutcome(s: DriverState, f: Faults, filter: AthFilter, peakTime: AthPeakTime)
    ensures var r := SetAudioToVibeControl(s, f, filter, peakTime);
      var ath := s.bus.regs.athControl.(athFilter := filter, athPeakTime := peakTime);
      && FollowsPlan(s, f, [Read(AudioToVibeControl), Write(AthControlVal(ath))], r)
      && r.state.currentMode == s.currentMode
      && (r.result.Ok? ==> r.state.bus.regs == s.bus.regs.(athControl := ath))
      && (r.result.Err? ==> r.state.bus.regs == s.bus.regs)
  {
    ModifyRegOutcome(s, f, AthFields(filter, peakTime));
  }

  /** `set_library` and `set_high_impedance`: each changes its own field of the library register only. */
  lemma LibraryRegisterOutcome(s: DriverState, f: Faults, library: LibrarySelection, hiZ: bool)
    ensures var r := SetLibrary(s, f, library);
      && FollowsPlan(s, f, [Read(LibrarySel), Write(LibraryVal(s.bus.regs.library.(librarySel := library)))], r)
      && (r.result.Ok? ==> r.state.bus.regs == s.bus.regs.(library := s.bus.regs.library.(librarySel := library)))
    ensures var r := SetHighImpedance(s, f, hiZ);
      && FollowsPlan(s, f, [Read(LibrarySel), Write(LibraryVal(s.bus.regs.library.(hiZ := hiZ)))], r)
      && (r.result.Ok? ==> r.state.bus.regs == s.bus.regs.(library := s.bus.regs.library.(hiZ := hiZ)))
  {
    ModifyRegOutcome(s, f, LibrarySelField(library));
    ModifyRegOutcome(s, f, HiZField(hiZ));
  }

  /**
   * `go`, `stop` and `is_active`: GO is written set or cleared, and reading
   * it back after a successful write reports what was written. A failed
   * write changes no register, and none of them touches the cached mode.
   */
  lemma PlaybackOutcome(s: DriverState, f: Faults, start: bool)
    ensures var w := if start then DriverSpec.Go(s, f) else Stop(s, f);
      && FollowsPlan(s, f, [Write(GoVal(start))], w)
      && w.state.currentMode == s.currentMode
      && (w.result.Ok? ==> w.state.bus.regs == s.bus.regs.(go := start))
      && (w.result.Err? ==> w.state.bus.regs == s.bus.regs)
      && (w.result.Ok? && |w.state.bus.trace| !in f ==> IsActive(w.state, f).result == Ok(start))
    ensures var q := IsActive(s, f);
      && FollowsPlan(s, f, [Read(Register.Go)], q)
      && q.state.bus.regs == s.bus.regs && q.state.currentMode == s.currentMode
      && (q.result.Ok? ==> q.result.value == s.bus.regs.go)
  {
    WriteFollowsPlan(s, f, GoVal(start));
    ReadFollowsPlan(s, f, Register.Go);
  }

  /**
   * The two status views: both read STATUS once, and on success they agree
   * on every field they share, all taken from the register.
   */
  lemma StatusViewsAgree(s: DriverState, f: Faults)
    ensures var a := GetStatus(s, f);
      var b := GetStatusFull(s, f);
      var st := s.bus.regs.status;
      && FollowsPlan(s, f, [Read(Status)], a)
      && a.state == b.state
      && a.state.bus.regs == s.bus.regs && a.state.currentMode == s.currentMode
      && (a.result.Ok? <==> b.result.Ok?)
      && (a.result.Ok? ==>
            && a.result.value == StatusInfo(st.ocDetect, st.overTemp, st.diagResult, st.deviceId)
            && b.result.value.overcurrentDetected == a.result.value.overcurrentDetected
            && b.result.value.overtemperatureDetected == a.result.value.overtemperatureDetected
            && b.result.value.diagnosticResult == a.result.value.diagnosticResult
            && b.result.value.deviceId == a.result.value.deviceId
            && b.result.value.feedbackStatus == st.fbSts
            && b.result.value.illegalAddress == st.illegalAddr)
      && (a.result.Err? ==> b.result.Err? && a.result.error == b.result.error)
  {
    ReadFollowsPlan(s, f, Status);
  }
}
