/**
 * The driver's operations as functions of the driver state and the fault
 * oracle. Each returns the new state (trace, registers, cached mode) and the
 * operation's result; a `?` in the driver is an early return of the error.
 */
module DriverSpec {
  import opened Wrappers
  import opened Primitives
  import opened Waveform
  import opened Effects
  import opened Registers
  import opened Interface
  import opened Bus

  /** The driver's error type; `I2c` carries the transport's error unchanged. */
  datatype Error =
    | I2c(cause: I2cError)
    | InvalidDeviceId(expected: Byte, found: Byte)
    | NotReady
    | InvalidConfig(reason: string)
    | Timeout
    | InvalidWaveform

  /** `From<DeviceInterfaceError>` for the driver error. */
  function FromInterfaceError(e: DeviceInterfaceError): (r: Error)
    ensures r.I2c? && r.cause == e.cause
  {
    match e
    case InterfaceI2c(cause) => I2c(cause)
  }

  /** Device ids the blocking `init` accepts: DRV2605, DRV2604, DRV2604L, DRV2605L. */
  const RecognizedDeviceIds: set<Byte> := {3, 4, 6, 7}

  /** The id the blocking `init` reports as expected when it rejects a device. */
  const ReportedExpectedId: Byte := 3

  /** The chip variants, one cargo feature each. */
  datatype Chip = Drv2604 | Drv2604L | Drv2605 | Drv2605L

  /**
   * `EXPECTED_DEVICE_ID` of the async init: the id of the first enabled chip
   * feature in the order drv2604, drv2604l, drv2605, drv2605l. With no chip
   * feature enabled the constant does not exist and the crate does not build.
   */
  function ExpectedDeviceId(features: set<Chip>): (id: Byte)
    requires features != {}
    ensures id in RecognizedDeviceIds
    ensures Drv2604 in features ==> id == 4
    ensures Drv2604 !in features && Drv2604L in features ==> id == 6
    ensures Drv2604 !in features && Drv2604L !in features && Drv2605 in features ==> id == 3
    ensures features == {Drv2605L} ==> id == 7
  {
    if Drv2604 in features then 4
    else if Drv2604L in features then 6
    else if Drv2605 in features then 3
    else 7
  }

  /** `StatusInfo` of the blocking driver and of the async driver in the crate root. */
  datatype StatusInfo = StatusInfo(
    overcurrentDetected: bool, overtemperatureDetected: bool, diagnosticResult: bool, deviceId: Byte)

  /** `StatusInfo` as the separate async implementation fills it, with two more flags. */
  datatype FullStatusInfo = FullStatusInfo(
    overcurrentDetected: bool, overtemperatureDetected: bool, feedbackStatus: bool,
    diagnosticResult: bool, illegalAddress: bool, deviceId: Byte)

  /** What a driver instance consists of: its device and the cached mode. */
  datatype DriverState = DriverState(bus: BusState, currentMode: Option<OperatingMode>)

  /** The state after an operation and its result. */
  datatype Run<T> = Run(state: DriverState, result: Result<T, Error>)

  function Lift<T>(s: DriverState, b: BusRun<T>): Run<T>
  {
    Run(s.(bus := b.bus), if b.result.Ok? then Ok(b.result.value) else Err(FromInterfaceError(b.result.error)))
  }

  function ReadReg(s: DriverState, f: Faults, r: Register): Run<RegValue>
  {
    Lift(s, ReadStep(s.bus, f, r))
  }

  function WriteReg(s: DriverState, f: Faults, v: RegValue): Run<()>
  {
    Lift(s, WriteStep(s.bus, f, v))
  }

  function ModifyReg(s: DriverState, f: Faults, e: Edit): Run<()>
  {
    Lift(s, ModifyStep(s.bus, f, e))
  }

  /**
   * The device-id check shared by the init variants: read STATUS, reject an id
   * outside `accepted` reporting `expected`, then clear standby and select the
   * internal-trigger mode.
   */
  function InitChecked(s: DriverState, f: Faults, accepted: set<Byte>, expected: Byte): Run<()>
  {
    var rd := ReadReg(s, f, Status);
    if rd.result.Err? then Run(rd.state, Err(rd.result.error))
    else
      var id := rd.result.value.status.deviceId;
      if id !in accepted then Run(rd.state, Err(InvalidDeviceId(expected, id)))
      else
        var sb := ModifyReg(rd.state, f, StandbyField(false));
        if sb.result.Err? then sb else SetMode(sb.state, f, Internal)
  }

  /** `init` (and the crate root's `init_async`): any recognised id is accepted. */
  function Init(s: DriverState, f: Faults): Run<()>
  {
    InitChecked(s, f, RecognizedDeviceIds, ReportedExpectedId)
  }

  /** `init_async` of the async implementation: only the feature's own id is accepted. */
  function InitAsync(s: DriverState, f: Faults, features: set<Chip>): Run<()>
    requires features != {}
  {
    InitChecked(s, f, {ExpectedDeviceId(features)}, ExpectedDeviceId(features))
  }

  /** The steps `init_open_loop_erm` takes after a successful init. */
  function ConfigureOpenLoopErm(init: Run<()>, f: Faults): Run<()>
  {
    if init.result.Err? then init
    else
      var act := SetActuatorType(init.state, f, false);
      if act.result.Err? then act else OpenLoopEffect(act.state, f)
  }

  /** The last two steps of `init_open_loop_erm`: set the open-loop bit, then program effect 1. */
  function OpenLoopEffect(s: DriverState, f: Faults): Run<()>
  {
    var ol := ModifyReg(s, f, ErmOpenLoopField(true));
    if ol.result.Err? then ol else SetSingleEffect(ol.state, f, 1)
  }

  function InitOpenLoopErm(s: DriverState, f: Faults): Run<()>
  {
    ConfigureOpenLoopErm(Init(s, f), f)
  }

  function InitOpenLoopErmAsync(s: DriverState, f: Faults, features: set<Chip>): Run<()>
    requires features != {}
  {
    ConfigureOpenLoopErm(InitAsync(s, f, features), f)
  }

  function GetStatus(s: DriverState, f: Faults): Run<StatusInfo>
  {
    var rd := ReadReg(s, f, Status);
    if rd.result.Err? then Run(rd.state, Err(rd.result.error))
    else
      var st := rd.result.value.status;
      Run(rd.state, Ok(StatusInfo(st.ocDetect, st.overTemp, st.diagResult, st.deviceId)))
  }

  function GetStatusFull(s: DriverState, f: Faults): Run<FullStatusInfo>
  {
    var rd := ReadReg(s, f, Status);
    if rd.result.Err? then Run(rd.state, Err(rd.result.error))
    else
      var st := rd.result.value.status;
      Run(rd.state, Ok(FullStatusInfo(st.ocDetect, st.overTemp, st.fbSts, st.diagResult, st.illegalAddr, st.deviceId)))
  }

  function SetMode(s: DriverState, f: Faults, m: OperatingMode): Run<()>
  {
    var w := ModifyReg(s, f, ModeField(m));
    if w.result.Err? then w else Run(w.state.(currentMode := Some(m)), Ok(()))
  }

  function GetMode(s: DriverState, f: Faults): Run<OperatingMode>
  {
    var rd := ReadReg(s, f, Mode);
    if rd.result.Err? then Run(rd.state, Err(rd.result.error))
    else Run(rd.state, Ok(rd.result.value.mode.mode))
  }

  function SetStandby(s: DriverState, f: Faults, standby: bool): Run<()>
  {
    ModifyReg(s, f, StandbyField(standby))
  }

  function Reset(s: DriverState, f: Faults): Run<()>
  {
    var w := ModifyReg(s, f, DevResetField);
    if w.result.Err? then w else Run(w.state.(currentMode := None), Ok(()))
  }

  function SetLibrary(s: DriverState, f: Faults, library: LibrarySelection): Run<()>
  {
    ModifyReg(s, f, LibrarySelField(library))
  }

  function SetHighImpedance(s: DriverState, f: Faults, hiZ: bool): Run<()>
  {
    ModifyReg(s, f, HiZField(hiZ))
  }

  function SetWaveformEntry(s: DriverState, f: Faults, index: Byte, entry: WaveformEntry): Run<()>
  {
    if index > 7 then Run(s, Err(InvalidWaveform))
    else WriteReg(s, f, SlotVal(index, entry))
  }

  /** Slot writes `i`, `i + 1`, .. of `slots`, in index order, stopping at the first error. */
  function WriteSlots(s: DriverState, f: Faults, slots: seq<WaveformEntry>, i: nat): Run<()>
    requires |slots| <= SlotCount
    decreases |slots| - i
  {
    if i >= |slots| then Run(s, Ok(()))
    else
      var w := SetWaveformEntry(s, f, i, slots[i]);
      if w.result.Err? then w else WriteSlots(w.state, f, slots, i + 1)
  }

  function SetWaveformSequence(s: DriverState, f: Faults, entries: seq<WaveformEntry>): Run<()>
  {
    if |entries| > SlotCount then Run(s, Err(InvalidWaveform))
    else WriteSlots(s, f, Padded(entries), 0)
  }

  function SetSingleEffect(s: DriverState, f: Faults, effectId: Byte): Run<()>
  {
    SetWaveformSequence(s, f, [EffectEntry(effectId), StopEntry()])
  }

  function SetSingleEffectEnum(s: DriverState, f: Faults, effect: Effect): Run<()>
  {
    SetWaveformSequence(s, f, [EffectFromEnum(effect), StopEntry()])
  }

  function Go(s: DriverState, f: Faults): Run<()>
  {
    WriteReg(s, f, GoVal(true))
  }

  function Stop(s: DriverState, f: Faults): Run<()>
  {
    WriteReg(s, f, GoVal(false))
  }

  function IsActive(s: DriverState, f: Faults): Run<bool>
  {
    var rd := ReadReg(s, f, Register.Go);
    if rd.result.Err? then Run(rd.state, Err(rd.result.error))
    else Run(rd.state, Ok(rd.result.value.go))
  }

  /** A write of one whole-byte register (RTP input, voltages, audio-to-vibe levels). */
  function WriteByte(s: DriverState, f: Faults, r: ByteRegister, value: Byte): Run<()>
  {
    WriteReg(s, f, ByteVal(r, value))
  }

  /** The four timing-offset registers. */
  predicate IsTimingOffset(r: ByteRegister)
  {
    r in {OverdriveTimeOffset, SustainTimeOffsetPos, SustainTimeOffsetNeg, BrakeTimeOffset}
  }

  /** A timing-offset setter: the signed offset is written as its `u8` bit pattern. */
  function SetTimeOffset(s: DriverState, f: Faults, r: ByteRegister, offset: I8): Run<()>
    requires IsTimingOffset(r)
  {
    WriteByte(s, f, r, AsU8(offset))
  }

  function SetActuatorType(s: DriverState, f: Faults, isLra: bool): Run<()>
  {
    ModifyReg(s, f, NErmLraField(isLra))
  }

  function SetFeedbackControl(s: DriverState, f: Faults, loopGain: LoopGain, brakeFactor: FbBrakeFactor, bemfGain: Byte): Run<()>
  {
    ModifyReg(s, f, FeedbackFields(loopGain, brakeFactor, Low2(bemfGain)))
  }

  function SetAudioToVibeControl(s: DriverState, f: Faults, filter: AthFilter, peakTime: AthPeakTime): Run<()>
  {
    ModifyReg(s, f, AthFields(filter, peakTime))
  }

  /** Select a mode, then set GO only if the mode write succeeded. */
  function StartInMode(s: DriverState, f: Faults, m: OperatingMode): Run<()>
  {
    var sm := SetMode(s, f, m);
    if sm.result.Err? then sm else Go(sm.state, f)
  }

  function StartAutoCalibration(s: DriverState, f: Faults): Run<()>
  {
    StartInMode(s, f, AutoCalibration)
  }

  function StartDiagnostics(s: DriverState, f: Faults): Run<()>
  {
    StartInMode(s, f, Diagnostics)
  }
}
