/**
 * The driver handle `Drv260x`: the device object and the cached operating
 * mode. Every method is proved to leave the handle in the state, and return
 * the result, that the matching function of `DriverSpec` describes. The
 * async methods mirror the blocking ones; async suspension is not modelled,
 * so each runs as the same sequence of register accesses.
 */
module Driver {
  import opened Wrappers
  import opened Primitives
  import opened Waveform
  import opened Effects
  import opened Registers
  import opened Interface
  import opened Bus
  import opened DriverSpec

  class Drv260x {
    const device: Device
    var currentMode: Option<OperatingMode>

    /** `Drv260x::new`: no mode is cached until one is written. */
    constructor(device: Device)
      ensures this.device == device && currentMode == None
    {
      this.device := device;
      currentMode := None;
    }

    function State(): DriverState
      reads this, device
    {
      DriverState(device.State(), currentMode)
    }

    // Register accesses with the device error converted by `?`.

    method Read(reg: Register) returns (r: Result<RegValue, Error>)
      modifies device
      ensures Run(State(), r) == DriverSpec.ReadReg(old(State()), device.faults, reg)
    {
      var res := device.Read(reg);
      r := if res.Ok? then Ok(res.value) else Err(FromInterfaceError(res.error));
    }

    method Write(v: RegValue) returns (r: Result<(), Error>)
      modifies device
      ensures Run(State(), r) == DriverSpec.WriteReg(old(State()), device.faults, v)
    {
      var res := device.Write(v);
      r := if res.Ok? then Ok(()) else Err(FromInterfaceError(res.error));
    }

    method Modify(e: Edit) returns (r: Result<(), Error>)
      modifies device
      ensures Run(State(), r) == DriverSpec.ModifyReg(old(State()), device.faults, e)
    {
      var res := device.Modify(e);
      r := if res.Ok? then Ok(()) else Err(FromInterfaceError(res.error));
    }

    /** The device-id check and start-up writes shared by the init variants. */
    method InitChecked(accepted: set<Byte>, expected: Byte) returns (r: Result<(), Error>)
      modifies this, device
      ensures Run(State(), r) == DriverSpec.InitChecked(old(State()), device.faults, accepted, expected)
    {
      var status := Read(Status);
      if status.Err? {
        return Err(status.error);
      }
      var id := status.value.status.deviceId;
      if id !in accepted {
        return Err(InvalidDeviceId(expected, id));
      }
      r := Modify(StandbyField(false));
      if r.Err? {
        return;
      }
      r := SetMode(Internal);
    }

    /** The steps of `init_open_loop_erm` after the init step. */
    method ConfigureOpenLoopErm(ghost init: Run<()>, initResult: Result<(), Error>) returns (r: Result<(), Error>)
      requires init == Run(State(), initResult)
      modifies device
      ensures Run(State(), r) == DriverSpec.ConfigureOpenLoopErm(init, device.faults)
    {
      if initResult.Err? {
        return initResult;
      }
      r := SetActuatorType(false);
      if r.Err? {
        return;
      }
      r := Modify(ErmOpenLoopField(true));
      if r.Err? {
        return;
      }
      r := SetSingleEffect(1);
    }

    method Init() returns (r: Result<(), Error>)
      modifies this, device
      ensures Run(State(), r) == DriverSpec.Init(old(State()), device.faults)
    {
      r := InitChecked(RecognizedDeviceIds, ReportedExpectedId);
    }

    method InitOpenLoopErm() returns (r: Result<(), Error>)
      modifies this, device
      ensures Run(State(), r) == DriverSpec.InitOpenLoopErm(old(State()), device.faults)
    {
      r := Init();
      r := ConfigureOpenLoopErm(Run(State(), r), r);
    }

    method GetStatus() returns (r: Result<StatusInfo, Error>)
      modifies device
      ensures Run(State(), r) == DriverSpec.GetStatus(old(State()), device.faults)
    {
      var status := Read(Status);
      if status.Err? {
        return Err(status.error);
      }
      var st := status.value.status;
      r := Ok(StatusInfo(st.ocDetect, st.overTemp, st.diagResult, st.deviceId));
    }

    method SetMode(m: OperatingMode) returns (r: Result<(), Error>)
      modifies this, device
      ensures Run(State(), r) == DriverSpec.SetMode(old(State()), device.faults, m)
    {
      r := Modify(ModeField(m));
      if r.Ok? {
        currentMode := Some(m);
      }
    }

    method GetMode() returns (r: Result<OperatingMode, Error>)
      modifies device
      ensures Run(State(), r) == DriverSpec.GetMode(old(State()), device.faults)
    {
      var reg := Read(Mode);
      if reg.Err? {
        return Err(reg.error);
      }
      r := Ok(reg.value.mode.mode);
    }

    method SetStandby(standby: bool) returns (r: Result<(), Error>)
      modifies device
      ensures Run(State(), r) == DriverSpec.SetStandby(old(State()), device.faults, standby)
    {
      r := Modify(StandbyField(standby));
    }

    method Reset() returns (r: Result<(), Error>)
      modifies this, device
      ensures Run(State(), r) == DriverSpec.Reset(old(State()), device.faults)
    {
      r := Modify(DevResetField);
      if r.Ok? {
        currentMode := None;
      }
    }

    method SetLibrary(library: LibrarySelection) returns (r: Result<(), Error>)
      modifies device
      ensures Run(State(), r) == DriverSpec.SetLibrary(old(State()), device.faults, library)
    {
      r := Modify(LibrarySelField(library));
    }

    method SetHighImpedance(hiZ: bool) returns (r: Result<(), Error>)
      modifies device
      ensures Run(State(), r) == DriverSpec.SetHighImpedance(old(State()), device.faults, hiZ)
    {
      r := Modify(HiZField(hiZ));
    }

    method SetWaveformEntry(index: Byte, entry: WaveformEntry) returns (r: Result<(), Error>)
      modifies device
      ensures Run(State(), r) == DriverSpec.SetWaveformEntry(old(State()), device.faults, index, entry)
    {
      if index > 7 {
        return Err(InvalidWaveform);
      }
      r := Write(SlotVal(index, entry));
    }

    method SetWaveformSequence(entries: seq<WaveformEntry>) returns (r: Result<(), Error>)
      modifies device
      ensures Run(State(), r) == DriverSpec.SetWaveformSequence(old(State()), device.faults, entries)
    {
      if |entries| > SlotCount {
        return Err(InvalidWaveform);
      }
      ghost var slots := Padded(entries);
      ghost var goal := WriteSlots(State(), device.faults, slots, 0);
      for i := 0 to |entries|
        invariant WriteSlots(State(), device.faults, slots, i) == goal
      {
        r := SetWaveformEntry(i, entries[i]);
        if r.Err? {
          return;
        }
      }
      for i := |entries| to SlotCount
        invariant WriteSlots(State(), device.faults, slots, i) == goal
      {
        r := SetWaveformEntry(i, StopEntry());
        if r.Err? {
          return;
        }
      }
      r := Ok(());
    }

    method SetSingleEffect(effectId: Byte) returns (r: Result<(), Error>)
      modifies device
      ensures Run(State(), r) == DriverSpec.SetSingleEffect(old(State()), device.faults, effectId)
    {
      r := SetWaveformSequence([EffectEntry(effectId), StopEntry()]);
    }

    method SetSingleEffectEnum(effect: Effect) returns (r: Result<(), Error>)
      modifies device
      ensures Run(State(), r) == DriverSpec.SetSingleEffectEnum(old(State()), device.faults, effect)
    {
      r := SetWaveformSequence([EffectFromEnum(effect), StopEntry()]);
    }

    method Go() returns (r: Result<(), Error>)
      modifies device
      ensures Run(State(), r) == DriverSpec.Go(old(State()), device.faults)
    {
      r := Write(GoVal(true));
    }

    method Stop() returns (r: Result<(), Error>)
      modifies device
      ensures Run(State(), r) == DriverSpec.Stop(old(State()), device.faults)
    {
      r := Write(GoVal(false));
    }

    method IsActive() returns (r: Result<bool, Error>)
      modifies device
      ensures Run(State(), r) == DriverSpec.IsActive(old(State()), device.faults)
    {
      var reg := Read(Register.Go);
      if reg.Err? {
        return Err(reg.error);
      }
      r := Ok(reg.value.go);
    }

    method SetRtpInput(value: Byte) returns (r: Result<(), Error>)
      modifies device
      ensures Run(State(), r) == WriteByte(old(State()), device.faults, RealTimePlaybackInput, value)
    {
      r := Write(ByteVal(RealTimePlaybackInput, value));
    }

    method SetRatedVoltage(voltage: Byte) returns (r: Result<(), Error>)
      modifies device
      ensures Run(State(), r) == WriteByte(old(State()), device.faults, RatedVoltage, voltage)
    {
      r := Write(ByteVal(RatedVoltage, voltage));
    }

    method SetOverdriveClampVoltage(voltage: Byte) returns (r: Result<(), Error>)
      modifies device
      ensures Run(State(), r) == WriteByte(old(State()), device.faults, OverdriveClampVoltage, voltage)
    {
      r := Write(ByteVal(OverdriveClampVoltage, voltage));
    }

    method SetAudioToVibeMinInputLevel(level: Byte) returns (r: Result<(), Error>)
      modifies device
      ensures Run(State(), r) == WriteByte(old(State()), device.faults, AthMinInputLevel, level)
    {
      r := Write(ByteVal(AthMinInputLevel, level));
    }

    method SetAudioToVibeMaxInputLevel(level: Byte) returns (r: Result<(), Error>)
      modifies device
      ensures Run(State(), r) == WriteByte(old(State()), device.faults, AthMaxInputLevel, level)
    {
      r := Write(ByteVal(AthMaxInputLevel, level));
    }

    method SetAudioToVibeMinOutputDrive(level: Byte) returns (r: Result<(), Error>)
      modifies device
      ensures Run(State(), r) == WriteByte(old(State()), device.faults, AthMinOutputDrive, level)
    {
      r := Write(ByteVal(AthMinOutputDrive, level));
    }

    method SetAudioToVibeMaxOutputDrive(level: Byte) returns (r: Result<(), Error>)
      modifies device
      ensures Run(State(), r) == WriteByte(old(State()), device.faults, AthMaxOutputDrive, level)
    {
      r := Write(ByteVal(AthMaxOutputDrive, level));
    }

    method SetActuatorType(isLra: bool) returns (r: Result<(), Error>)
      modifies device
      ensures Run(State(), r) == DriverSpec.SetActuatorType(old(State()), device.faults, isLra)
    {
      r := Modify(NErmLraField(isLra));
    }

    method SetFeedbackControl(loopGain: LoopGain, brakeFactor: FbBrakeFactor, bemfGain: Byte) returns (r: Result<(), Error>)
      modifies device
      ensures Run(State(), r) == DriverSpec.SetFeedbackControl(old(State()), device.faults, loopGain, brakeFactor, bemfGain)
    {
      r := Modify(FeedbackFields(loopGain, brakeFactor, Low2(bemfGain)));
    }

    method SetOverdriveTimeOffset(offset: I8) returns (r: Result<(), Error>)
      modifies device
      ensures Run(State(), r) == SetTimeOffset(old(State()), device.faults, OverdriveTimeOffset, offset)
    {
      r := Write(ByteVal(OverdriveTimeOffset, AsU8(offset)));
    }

    method SetSustainTimeOffsetPositive(offset: I8) returns (r: Result<(), Error>)
      modifies device
      ensures Run(State(), r) == SetTimeOffset(old(State()), device.faults, SustainTimeOffsetPos, offset)
    {
      r := Write(ByteVal(SustainTimeOffsetPos, AsU8(offset)));
    }

    method SetSustainTimeOffsetNegative(offset: I8) returns (r: Result<(), Error>)
      modifies device
      ensures Run(State(), r) == SetTimeOffset(old(State()), device.faults, SustainTimeOffsetNeg, offset)
    {
      r := Write(ByteVal(SustainTimeOffsetNeg, AsU8(offset)));
    }

    method SetBrakeTimeOffset(offset: I8) returns (r: Result<(), Error>)
      modifies device
      ensures Run(State(), r) == SetTimeOffset(old(State()), device.faults, BrakeTimeOffset, offset)
    {
      r := Write(ByteVal(BrakeTimeOffset, AsU8(offset)));
    }

    method SetAudioToVibeControl(filter: AthFilter, peakTime: AthPeakTime) returns (r: Result<(), Error>)
      modifies device
      ensures Run(State(), r) == DriverSpec.SetAudioToVibeControl(old(State()), device.faults, filter, peakTime)
    {
      r := Modify(AthFields(filter, peakTime));
    }

    method StartAutoCalibration() returns (r: Result<(), Error>)
      modifies this, device
      ensures Run(State(), r) == DriverSpec.StartAutoCalibration(old(State()), device.faults)
    {
      r := SetMode(AutoCalibration);
      if r.Err? {
        return;
      }
      r := Go();
    }

    method StartDiagnostics() returns (r: Result<(), Error>)
      modifies this, device
      ensures Run(State(), r) == DriverSpec.StartDiagnostics(old(State()), device.faults)
    {
      r := SetMode(Diagnostics);
      if r.Err? {
        return;
      }
      r := Go();
    }

    // The async mirror.

    /** The async init sequence: the same steps as InitChecked, selecting the mode through SetModeAsync. */
    method InitCheckedAsync(accepted: set<Byte>, expected: Byte) returns (r: Result<(), Error>)
      modifies this, device
      ensures Run(State(), r) == DriverSpec.InitChecked(old(State()), device.faults, accepted, expected)
    {
      var status := Read(Status);
      if status.Err? {
        return Err(status.error);
      }
      var id := status.value.status.deviceId;
      if id !in accepted {
        return Err(InvalidDeviceId(expected, id));
      }
      r := Modify(StandbyField(false));
      if r.Err? {
        return;
      }
      r := SetModeAsync(Internal);
    }

    /** The steps of `init_open_loop_erm_async` after the init step, through the async setters. */
    method ConfigureOpenLoopErmAsync(ghost init: Run<()>, initResult: Result<(), Error>) returns (r: Result<(), Error>)
      requires init == Run(State(), initResult)
      modifies device
      ensures Run(State(), r) == DriverSpec.ConfigureOpenLoopErm(init, device.faults)
    {
      if initResult.Err? {
        return initResult;
      }
      r := SetActuatorTypeAsync(false);
      if r.Err? {
        return;
      }
      r := Modify(ErmOpenLoopField(true));
      if r.Err? {
        return;
      }
      r := SetSingleEffectAsync(1);
    }

    /** `init_async` of the async implementation: the build's own chip id only. */
    method InitAsync(features: set<Chip>) returns (r: Result<(), Error>)
      requires features != {}
      modifies this, device
      ensures Run(State(), r) == DriverSpec.InitAsync(old(State()), device.faults, features)
    {
      r := InitCheckedAsync({ExpectedDeviceId(features)}, ExpectedDeviceId(features));
    }

    /** `init_async` of the crate root: any recognised chip id. */
    method InitAsyncAnyVariant() returns (r: Result<(), Error>)
      modifies this, device
      ensures Run(State(), r) == DriverSpec.Init(old(State()), device.faults)
    {
      r := InitCheckedAsync(RecognizedDeviceIds, ReportedExpectedId);
    }

    method InitOpenLoopErmAsync(features: set<Chip>) returns (r: Result<(), Error>)
      requires features != {}
      modifies this, device
      ensures Run(State(), r) == DriverSpec.InitOpenLoopErmAsync(old(State()), device.faults, features)
    {
      r := InitAsync(features);
      r := ConfigureOpenLoopErmAsync(Run(State(), r), r);
    }

    method GetStatusAsync() returns (r: Result<StatusInfo, Error>)
      modifies device
      ensures Run(State(), r) == DriverSpec.GetStatus(old(State()), device.faults)
    {
      var status := Read(Status);
      if status.Err? {
        return Err(status.error);
      }
      var st := status.value.status;
      r := Ok(StatusInfo(st.ocDetect, st.overTemp, st.diagResult, st.deviceId));
    }

    /** `get_status_async` of the async implementation, with the feedback and illegal-address flags. */
    method GetStatusFullAsync() returns (r: Result<FullStatusInfo, Error>)
      modifies device
      ensures Run(State(), r) == DriverSpec.GetStatusFull(old(State()), device.faults)
    {
      var status := Read(Status);
      if status.Err? {
        return Err(status.error);
      }
      var st := status.value.status;
      r := Ok(FullStatusInfo(st.ocDetect, st.overTemp, st.fbSts, st.diagResult, st.illegalAddr, st.deviceId));
    }

    method SetModeAsync(m: OperatingMode) returns (r: Result<(), Error>)
      modifies this, device
      ensures Run(State(), r) == DriverSpec.SetMode(old(State()), device.faults, m)
    {
      r := Modify(ModeField(m));
      if r.Ok? {
        currentMode := Some(m);
      }
    }

    method GetModeAsync() returns (r: Result<OperatingMode, Error>)
      modifies device
      ensures Run(State(), r) == DriverSpec.GetMode(old(State()), device.faults)
    {
      var reg := Read(Mode);
      if reg.Err? {
        return Err(reg.error);
      }
      r := Ok(reg.value.mode.mode);
    }

    method SetStandbyAsync(standby: bool) returns (r: Result<(), Error>)
      modifies device
      ensures Run(State(), r) == DriverSpec.SetStandby(old(State()), device.faults, standby)
    {
      r := Modify(StandbyField(standby));
    }

    method ResetAsync() returns (r: Result<(), Error>)
      modifies this, device
      ensures Run(State(), r) == DriverSpec.Reset(old(State()), device.faults)
    {
      r := Modify(DevResetField);
      if r.Ok? {
        currentMode := None;
      }
    }

    method SetLibraryAsync(library: LibrarySelection) returns (r: Result<(), Error>)
      modifies device
      ensures Run(State(), r) == DriverSpec.SetLibrary(old(State()), device.faults, library)
    {
      r := Modify(LibrarySelField(library));
    }

    method SetHighImpedanceAsync(hiZ: bool) returns (r: Result<(), Error>)
      modifies device
      ensures Run(State(), r) == DriverSpec.SetHighImpedance(old(State()), device.faults, hiZ)
    {
      r := Modify(HiZField(hiZ));
    }

    method SetWaveformEntryAsync(index: Byte, entry: WaveformEntry) returns (r: Result<(), Error>)
      modifies device
      ensures Run(State(), r) == DriverSpec.SetWaveformEntry(old(State()), device.faults, index, entry)
    {
      if index > 7 {
        return Err(InvalidWaveform);
      }
      r := Write(SlotVal(index, entry));
    }

    method SetWaveformSequenceAsync(entries: seq<WaveformEntry>) returns (r: Result<(), Error>)
      modifies device
      ensures Run(State(), r) == DriverSpec.SetWaveformSequence(old(State()), device.faults, entries)
    {
      if |entries| > SlotCount {
        return Err(InvalidWaveform);
      }
      ghost var slots := Padded(entries);
      ghost var goal := WriteSlots(State(), device.faults, slots, 0);
      for i := 0 to |entries|
        invariant WriteSlots(State(), device.faults, slots, i) == goal
      {
        r := SetWaveformEntryAsync(i, entries[i]);
        if r.Err? {
          return;
        }
      }
      for i := |entries| to SlotCount
        invariant WriteSlots(State(), device.faults, slots, i) == goal
      {
        r := SetWaveformEntryAsync(i, StopEntry());
        if r.Err? {
          return;
        }
      }
      r := Ok(());
    }

    method SetSingleEffectAsync(effectId: Byte) returns (r: Result<(), Error>)
      modifies device
      ensures Run(State(), r) == DriverSpec.SetSingleEffect(old(State()), device.faults, effectId)
    {
      r := SetWaveformSequenceAsync([EffectEntry(effectId), StopEntry()]);
    }

    method SetSingleEffectEnumAsync(effect: Effect) returns (r: Result<(), Error>)
      modifies device
      ensures Run(State(), r) == DriverSpec.SetSingleEffectEnum(old(State()), device.faults, effect)
    {
      r := SetWaveformSequenceAsync([EffectFromEnum(effect), StopEntry()]);
    }

    method GoAsync() returns (r: Result<(), Error>)
      modifies device
      ensures Run(State(), r) == DriverSpec.Go(old(State()), device.faults)
    {
      r := Write(GoVal(true));
    }

    method StopAsync() returns (r: Result<(), Error>)
      modifies device
      ensures Run(State(), r) == DriverSpec.Stop(old(State()), device.faults)
    {
      r := Write(GoVal(false));
    }

    method IsActiveAsync() returns (r: Result<bool, Error>)
      modifies device
      ensures Run(State(), r) == DriverSpec.IsActive(old(State()), device.faults)
    {
      var reg := Read(Register.Go);
      if reg.Err? {
        return Err(reg.error);
      }
      r := Ok(reg.value.go);
    }

    method SetRtpInputAsync(value: Byte) returns (r: Result<(), Error>)
      modifies device
      ensures Run(State(), r) == WriteByte(old(State()), device.faults, RealTimePlaybackInput, value)
    {
      r := Write(ByteVal(RealTimePlaybackInput, value));
    }

    method SetRatedVoltageAsync(voltage: Byte) returns (r: Result<(), Error>)
      modifies device
      ensures Run(State(), r) == WriteByte(old(State()), device.faults, RatedVoltage, voltage)
    {
      r := Write(ByteVal(RatedVoltage, voltage));
    }

    method SetOverdriveClampVoltageAsync(voltage: Byte) returns (r: Result<(), Error>)
      modifies device
      ensures Run(State(), r) == WriteByte(old(State()), device.faults, OverdriveClampVoltage, voltage)
    {
      r := Write(ByteVal(OverdriveClampVoltage, voltage));
    }

    method SetAudioToVibeMinInputLevelAsync(level: Byte) returns (r: Result<(), Error>)
      modifies device
      ensures Run(State(), r) == WriteByte(old(State()), device.faults, AthMinInputLevel, level)
    {
      r := Write(ByteVal(AthMinInputLevel, level));
    }

    method SetAudioToVibeMaxInputLevelAsync(level: Byte) returns (r: Result<(), Error>)
      modifies device
      ensures Run(State(), r) == WriteByte(old(State()), device.faults, AthMaxInputLevel, level)
    {
      r := Write(ByteVal(AthMaxInputLevel, level));
    }

    method SetAudioToVibeMinOutputDriveAsync(level: Byte) returns (r: Result<(), Error>)
      modifies device
      ensures Run(State(), r) == WriteByte(old(State()), device.faults, AthMinOutputDrive, level)
    {
      r := Write(ByteVal(AthMinOutputDrive, level));
    }

    method SetAudioToVibeMaxOutputDriveAsync(level: Byte) returns (r: Result<(), Error>)
      modifies device
      ensures Run(State(), r) == WriteByte(old(State()), device.faults, AthMaxOutputDrive, level)
    {
      r := Write(ByteVal(AthMaxOutputDrive, level));
    }

    method SetActuatorTypeAsync(isLra: bool) returns (r: Result<(), Error>)
      modifies device
      ensures Run(State(), r) == DriverSpec.SetActuatorType(old(State()), device.faults, isLra)
    {
      r := Modify(NErmLraField(isLra));
    }

    method SetFeedbackControlAsync(loopGain: LoopGain, brakeFactor: FbBrakeFactor, bemfGain: Byte) returns (r: Result<(), Error>)
      modifies device
      ensures Run(State(), r) == DriverSpec.SetFeedbackControl(old(State()), device.faults, loopGain, brakeFactor, bemfGain)
    {
      r := Modify(FeedbackFields(loopGain, brakeFactor, Low2(bemfGain)));
    }

    method SetOverdriveTimeOffsetAsync(offset: I8) returns (r: Result<(), Error>)
      modifies device
      ensures Run(State(), r) == SetTimeOffset(old(State()), device.faults, OverdriveTimeOffset, offset)
    {
      r := Write(ByteVal(OverdriveTimeOffset, AsU8(offset)));
    }

    method SetSustainTimeOffsetPositiveAsync(offset: I8) returns (r: Result<(), Error>)
      modifies device
      ensures Run(State(), r) == SetTimeOffset(old(State()), device.faults, SustainTimeOffsetPos, offset)
    {
      r := Write(ByteVal(SustainTimeOffsetPos, AsU8(offset)));
    }

    method SetSustainTimeOffsetNegativeAsync(offset: I8) returns (r: Result<(), Error>)
      modifies device
      ensures Run(State(), r) == SetTimeOffset(old(State()), device.faults, SustainTimeOffsetNeg, offset)
    {
      r := Write(ByteVal(SustainTimeOffsetNeg, AsU8(offset)));
    }

    method SetBrakeTimeOffsetAsync(offset: I8) returns (r: Result<(), Error>)
      modifies device
      ensures Run(State(), r) == SetTimeOffset(old(State()), device.faults, BrakeTimeOffset, offset)
    {
      r := Write(ByteVal(BrakeTimeOffset, AsU8(offset)));
    }

    method SetAudioToVibeControlAsync(filter: AthFilter, peakTime: AthPeakTime) returns (r: Result<(), Error>)
      modifies device
      ensures Run(State(), r) == DriverSpec.SetAudioToVibeControl(old(State()), device.faults, filter, peakTime)
    {
      r := Modify(AthFields(filter, peakTime));
    }

    method StartAutoCalibrationAsync() returns (r: Result<(), Error>)
      modifies this, device
      ensures Run(State(), r) == DriverSpec.StartAutoCalibration(old(State()), device.faults)
    {
      r := SetModeAsync(AutoCalibration);
      if r.Err? {
        return;
      }
      r := GoAsync();
    }

    method StartDiagnosticsAsync() returns (r: Result<(), Error>)
      modifies this, device
      ensures Run(State(), r) == DriverSpec.StartDiagnostics(old(State()), device.faults)
    {
      r := SetModeAsync(Diagnostics);
      if r.Err? {
        return;
      }
      r := GoAsync();
    }
  }
}
