/**
 * The register file of a DRV260x, field by field. The generated register map
 * fixes addresses and bit positions; this model keeps only the fields the
 * driver reads or writes, each register as a record of its fields.
 */
module Registers {
  import opened Primitives
  import opened Waveform

  /** The 3-bit MODE field of the MODE register. */
  datatype OperatingMode =
    | Internal
    | ExternalEdge
    | ExternalLevel
    | PwmAnalog
    | AudioToVibe
    | RealTimePlayback
    | Diagnostics
    | AutoCalibration

  // Generated field enumerations: their variants are kept as numeric codes.
  type LibrarySelection = nat
  type LoopGain = nat
  type FbBrakeFactor = nat
  type AthFilter = nat
  type AthPeakTime = nat

  datatype StatusReg = StatusReg(
    deviceId: Byte, diagResult: bool, fbSts: bool, overTemp: bool, ocDetect: bool, illegalAddr: bool)

  datatype ModeReg = ModeReg(devReset: bool, standby: bool, mode: OperatingMode)

  datatype LibraryReg = LibraryReg(hiZ: bool, librarySel: LibrarySelection)

  datatype FeedbackReg = FeedbackReg(
    nErmLra: bool, fbBrakeFactor: FbBrakeFactor, loopGain: LoopGain, bemfGain: nat)

  /** CONTROL3: the ERM open-loop bit and the fields the driver never touches. */
  datatype Control3Reg = Control3Reg(ermOpenLoop: bool, otherFields: nat)

  /** Audio-to-vibe control: filter, peak time and the fields the driver never touches. */
  datatype AthControlReg = AthControlReg(athFilter: AthFilter, athPeakTime: AthPeakTime, otherFields: nat)

  /** Registers that hold one field spanning the whole byte. */
  datatype ByteRegister =
    | RealTimePlaybackInput
    | RatedVoltage
    | OverdriveClampVoltage
    | OverdriveTimeOffset
    | SustainTimeOffsetPos
    | SustainTimeOffsetNeg
    | BrakeTimeOffset
    | AthMinInputLevel
    | AthMaxInputLevel
    | AthMinOutputDrive
    | AthMaxOutputDrive

  datatype Register =
    | Status
    | Mode
    | LibrarySel
    | WaveformSequencer(slot: Slot)
    | Go
    | FeedbackControl
    | Control3
    | AudioToVibeControl
    | Plain(byteReg: ByteRegister)

  /** A decoded register value, tagged with the register it belongs to. */
  datatype RegValue =
    | StatusVal(status: StatusReg)
    | ModeVal(mode: ModeReg)
    | LibraryVal(library: LibraryReg)
    | SlotVal(slot: Slot, entry: WaveformEntry)
    | GoVal(go: bool)
    | FeedbackVal(feedback: FeedbackReg)
    | Control3Val(control3: Control3Reg)
    | AthControlVal(athControl: AthControlReg)
    | ByteVal(byteReg: ByteRegister, byte: Byte)

  type Sequencer = s: seq<WaveformEntry> | |s| == SlotCount witness seq(SlotCount, _ => WaveformEntry(0, false))

  /** The values of all whole-byte registers. */
  datatype ByteFile = ByteFile(
    rtpInput: Byte, ratedVoltage: Byte, odClamp: Byte, odt: Byte, spt: Byte, snt: Byte, brt: Byte, athMinInput: Byte, athMaxInput: Byte, athMinDrive: Byte, athMaxDrive: Byte)

  function ByteOf(b: ByteFile, r: ByteRegister): Byte
  {
    match r
    case RealTimePlaybackInput => b.rtpInput
    case RatedVoltage => b.ratedVoltage
    case OverdriveClampVoltage => b.odClamp
    case OverdriveTimeOffset => b.odt
    case SustainTimeOffsetPos => b.spt
    case SustainTimeOffsetNeg => b.snt
    case BrakeTimeOffset => b.brt
    case AthMinInputLevel => b.athMinInput
    case AthMaxInputLevel => b.athMaxInput
    case AthMinOutputDrive => b.athMinDrive
    case AthMaxOutputDrive => b.athMaxDrive
  }

  function WithByte(b: ByteFile, r: ByteRegister, v: Byte): (b': ByteFile)
    ensures ByteOf(b', r) == v
    ensures forall x | x != r :: ByteOf(b', x) == ByteOf(b, x)
  {
    match r
    case RealTimePlaybackInput => b.(rtpInput := v)
    case RatedVoltage => b.(ratedVoltage := v)
    case OverdriveClampVoltage => b.(odClamp := v)
    case OverdriveTimeOffset => b.(odt := v)
    case SustainTimeOffsetPos => b.(spt := v)
    case SustainTimeOffsetNeg => b.(snt := v)
    case BrakeTimeOffset => b.(brt := v)
    case AthMinInputLevel => b.(athMinInput := v)
    case AthMaxInputLevel => b.(athMaxInput := v)
    case AthMinOutputDrive => b.(athMinDrive := v)
    case AthMaxOutputDrive => b.(athMaxDrive := v)
  }

  /** The whole register file of one device. */
  datatype DeviceRegs = DeviceRegs(
    status: StatusReg,
    mode: ModeReg,
    library: LibraryReg,
    slots: Sequencer,
    go: bool,
    feedback: FeedbackReg,
    control3: Control3Reg,
    athControl: AthControlReg,
    bytes: ByteFile)

  function RegisterOf(v: RegValue): Register
  {
    match v
    case StatusVal(_) => Status
    case ModeVal(_) => Mode
    case LibraryVal(_) => LibrarySel
    case SlotVal(i, _) => WaveformSequencer(i)
    case GoVal(_) => Go
    case FeedbackVal(_) => FeedbackControl
    case Control3Val(_) => Control3
    case AthControlVal(_) => AudioToVibeControl
    case ByteVal(r, _) => Plain(r)
  }

  /** The value a read of register `r` decodes. */
  function Load(d: DeviceRegs, r: Register): (v: RegValue)
    ensures RegisterOf(v) == r
  {
    match r
    case Status => StatusVal(d.status)
    case Mode => ModeVal(d.mode)
    case LibrarySel => LibraryVal(d.library)
    case WaveformSequencer(i) => SlotVal(i, d.slots[i])
    case Go => GoVal(d.go)
    case FeedbackControl => FeedbackVal(d.feedback)
    case Control3 => Control3Val(d.control3)
    case AudioToVibeControl => AthControlVal(d.athControl)
    case Plain(b) => ByteVal(b, ByteOf(d.bytes, b))
  }

  /** The register file after a write of `v`; STATUS is read-only, so writing it changes nothing. */
  function Store(d: DeviceRegs, v: RegValue): DeviceRegs
  {
    match v
    case StatusVal(_) => d
    case ModeVal(m) => d.(mode := m)
    case LibraryVal(l) => d.(library := l)
    case SlotVal(i, e) => d.(slots := d.slots[i := e])
    case GoVal(g) => d.(go := g)
    case FeedbackVal(f) => d.(feedback := f)
    case Control3Val(c) => d.(control3 := c)
    case AthControlVal(a) => d.(athControl := a)
    case ByteVal(r, b) => d.(bytes := WithByte(d.bytes, r, b))
  }

  /**
   * Read after write: a writable register reads back what was written, and
   * every other register reads back what it held before.
   */
  lemma LoadStore(d: DeviceRegs, v: RegValue, r: Register)
    ensures Load(Store(d, v), r) == if r == RegisterOf(v) && !v.StatusVal? then v else Load(d, r)
  {
  }

  /**
   * The field updates the driver performs with read-modify-write, one per
   * closure it passes to the generated `modify`.
   */
  datatype Edit =
    | StandbyField(standby: bool)
    | ModeField(mode: OperatingMode)
    | DevResetField
    | LibrarySelField(librarySel: LibrarySelection)
    | HiZField(hiZ: bool)
    | NErmLraField(isLra: bool)
    | FeedbackFields(loopGain: LoopGain, brakeFactor: FbBrakeFactor, bemfGain: nat)
    | ErmOpenLoopField(enabled: bool)
    | AthFields(filter: AthFilter, peakTime: AthPeakTime)

  /** The register an edit reads and writes back. */
  function Target(e: Edit): Register
  {
    match e
    case StandbyField(_) => Mode
    case ModeField(_) => Mode
    case DevResetField => Mode
    case LibrarySelField(_) => LibrarySel
    case HiZField(_) => LibrarySel
    case NErmLraField(_) => FeedbackControl
    case FeedbackFields(_, _, _) => FeedbackControl
    case ErmOpenLoopField(_) => Control3
    case AthFields(_, _) => AudioToVibeControl
  }

  /** The closure applied to the decoded register: set the edited fields, keep the rest. */
  function Apply(e: Edit, v: RegValue): (w: RegValue)
    requires RegisterOf(v) == Target(e)
    ensures RegisterOf(w) == Target(e)
  {
    match e
    case StandbyField(b) => ModeVal(v.mode.(standby := b))
    case ModeField(m) => ModeVal(v.mode.(mode := m))
    case DevResetField => ModeVal(v.mode.(devReset := true))
    case LibrarySelField(l) => LibraryVal(v.library.(librarySel := l))
    case HiZField(b) => LibraryVal(v.library.(hiZ := b))
    case NErmLraField(b) => FeedbackVal(v.feedback.(nErmLra := b))
    case FeedbackFields(g, f, bemf) =>
      FeedbackVal(v.feedback.(loopGain := g, fbBrakeFactor := f, bemfGain := bemf))
    case ErmOpenLoopField(b) => Control3Val(v.control3.(ermOpenLoop := b))
    case AthFields(f, p) => AthControlVal(v.athControl.(athFilter := f, athPeakTime := p))
  }
}
