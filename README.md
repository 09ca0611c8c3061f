# drv260x — a verified model of the DRV260x haptic driver

This project models the `drv260x` crate. The crate is a `no_std` driver for the Texas
Instruments DRV2604, DRV2604L, DRV2605 and DRV2605L haptic motor drivers. The model
covers the driver handle `Drv260x` with its blocking and async operations, the
waveform-sequencer entries, the `Effect` library enum, the error type, and the
register interface that frames register accesses as I2C transactions.

How the model is layered:

- **Primitives.** The machine integers `u8` and `i8`, the bitwise AND the driver
  uses for its masks (`& 0x7F`, `& 0x3`), and the two's-complement cast `i8 as u8`.
- **Waveform.** `WaveformEntry` and its constructors `effect`, `wait` and `stop`,
  plus the padding of a short sequence with terminators.
- **Effects.** The 123 library effects, declared as a newtype over their
  discriminants 1..123, and the conversion `From<Effect>`.
- **Registers.** The register file of one device. Each register is kept as its
  decoded fields, not as bits. Each read-modify-write closure of the driver is an
  `Edit` that sets some fields and keeps the rest.
- **Interface.** `ll.rs`'s `DeviceInterface` over an I2C bus object. The bus logs
  every transaction, and a failure map decides which transactions fail.
- **Bus.** The generated device object at register level. It has a register file,
  a trace of every attempted access, and a fault oracle `Faults` that maps a trace
  position to the I2C error of the access at that position. A failed access is
  still recorded but changes no register.
- **DriverSpec.** One function per driver operation. Each maps the driver state
  (trace, registers, cached `current_mode`) and the fault oracle to the new state
  and the result. The `?` operator becomes an early return of the error.
- **Driver.** The class `Drv260x`. It holds the device and the cached mode. Every
  blocking and async method is proved to produce exactly the state and result of
  its `DriverSpec` function.
- **Traffic.** What it means to follow a plan: issue the planned accesses in order,
  stop right after the first one that fails and return its error, and succeed when
  none fails. Plans compose sequentially.
- **Proof modules.** `SequencerProofs`, `ModeProofs`, `InitProofs` and
  `ConfigProofs` state, for every operation:
  - the exact register traffic (its plan);
  - the error it returns at each failure point;
  - the registers it changes on success, and that nothing else changes;
  - what a failure leaves behind. For the operations of several steps (the
    start operations, init, the sequencer writes and the open-loop ERM set-up)
    this is stated stage by stage: which registers the steps before the
    failed access changed.

About the source files:

- `src/lib.rs` carries the blocking driver and the crate root's async driver.
- `src/sync_impl.rs` and `src/async_impl.rs` are alternative implementations that
  `lib.rs` does not declare as modules.
- The model covers all three. Where they do the same thing, the same `DriverSpec`
  function specifies both. Where they differ, each has its own function:
  - `init_async` of `async_impl.rs` accepts only the id of the build's chip feature;
  - its `StatusInfo` has two more flags.

## Model

| member | source | states |
|---|---|---|
| Primitives.BitAnd | src/lib.rs:99 | the bitwise AND is bounded by both operands |
| Primitives.AndLowMask | src/lib.rs:390 | AND with a mask of k low one-bits (`0x7F`, `0x3`) keeps exactly the value modulo 2^k |
| Primitives.Low7 | src/lib.rs:99 | `x & 0x7F` is `x % 128` and below 128 |
| Primitives.Low2 | src/lib.rs:390 | `bemf_gain & 0x3` is `bemf_gain % 4` and below 4 |
| Primitives.AsU8 | src/sync_impl.rs:239 | `offset as u8` is the offset modulo 256: unchanged when non-negative, 128 or more when negative |
| Primitives.AsI8 | src/sync_impl.rs:233 | reading a byte as two's complement gives a value congruent to it modulo 256 |
| Primitives.AsU8RoundTrip | src/sync_impl.rs:236-241 | the cast to `u8` loses nothing: reading the written byte back as `i8` gives the offset |
| Primitives.AsU8Bijective | src/sync_impl.rs:236-278 | the cast is a bijection between `i8` and `u8`: every byte comes from exactly one offset |
| Waveform.EffectEntry | src/lib.rs:97-102 | `WaveformEntry::effect` keeps the id modulo 128, below 128, with the wait flag clear |
| Waveform.WaitEntry | src/lib.rs:105-110 | `WaveformEntry::wait` keeps the time modulo 128, below 128, with the wait flag set |
| Waveform.EffectEntryIdempotent | src/lib.rs:97-102 | building an effect entry from an effect entry's value gives the same entry |
| Waveform.EffectEntryIsStopIff | src/lib.rs:97-118 | an effect entry equals the `stop` terminator exactly when the id is a multiple of 128 |
| Waveform.WaitEntryNeverStop | src/lib.rs:105-118 | a wait entry is never the terminator, not even a wait of 0 |
| Waveform.StopEntry | src/lib.rs:113-118 | the terminator: value 0, wait flag clear |
| Waveform.ConstructorsFit | src/lib.rs:88-118 | `effect`, `wait` and `stop` only build entries whose value fits the 7-bit field (0-127) |
| Waveform.Padded | src/lib.rs:311-319 | the slot contents a sequence programs: the entries in order in the first slots, the terminator in every later slot, 8 slots in all |
| Waveform.PaddedExtremes | src/lib.rs:316-319 | a full sequence is unchanged by padding; the empty sequence programs the terminator in all 8 slots |
| Effects.Discriminant | src/effects.rs:15-262 | every effect's discriminant lies in 1..123 |
| Effects.DeclaredInOrder | src/effects.rs:15-262 | the 123 variants are declared with strictly increasing discriminants from 1 (`StrongClick100`) to 123 (`SmoothHum5_10`) |
| Effects.EffectFromEnum | src/effects.rs:284-289 | `effect_from_enum` stores the discriminant as the value, with the wait flag clear |
| Effects.EffectFromEnumBijective | src/effects.rs:15-262 | converting an effect is a bijection onto the non-wait entries with values 1 to 123: equal entries come from equal effects, and an entry comes from some effect exactly when it is such an entry |
| Effects.EffectFromEnumIsEffectEntry | src/effects.rs:276-312 | converting an effect equals `WaveformEntry::effect` of its discriminant, is never the terminator, and fits 7 bits |
| Registers.WithByte | src/sync_impl.rs:184-206 | writing a whole-byte register sets that register and leaves every other byte register unchanged |
| Registers.Load | src/lib.rs:182-183 | a read of register r decodes a value of register r |
| Registers.Apply | src/lib.rs:197 | a read-modify-write closure yields a value of the register it edits |
| Interface.Outcome | src/ll.rs:37-60 | a transaction fails exactly when the failure map names it, and then with that error |
| Interface.WrapError | src/ll.rs:44-45 | `.map_err(DeviceInterfaceError::I2c)`: success is kept; an error is wrapped with its cause unchanged |
| Interface.I2cBus.constructor | src/ll.rs:28-31 | the bus starts with an empty transaction log |
| Interface.I2cBus.Write | src/ll.rs:56-58 | a write is logged once with its address and bytes; its result is the failure map's verdict |
| Interface.I2cBus.WriteRead | src/ll.rs:42-44 | a write-read is logged once; on success the buffer holds the bytes the device returns; on failure the buffer is unchanged, an assumption of the model (see Left out) |
| Interface.StageFrame | src/ll.rs:54-58 | the 9-byte staging buffer yields exactly the address byte followed by the payload, at most 9 bytes |
| Interface.DeviceInterface.constructor | src/lib.rs:162-167 | the interface wraps the given bus |
| Interface.DeviceInterface.ReadRegister | src/ll.rs:37-46 | one write-read to address 0x5A that sends the register address; the error is wrapped; the buffer is filled on success and left as it was on failure |
| Interface.DeviceInterface.WriteRegister | src/ll.rs:48-60 | one write to address 0x5A of the register address followed by the payload; the error is wrapped |
| Interface.DeviceInterface.ReadRegisterAsync | src/ll.rs:70-80 | the async read is the same transaction as the blocking read, with the same buffer contents on success and on failure |
| Interface.DeviceInterface.WriteRegisterAsync | src/ll.rs:82-95 | the async write sends the same frame as the blocking write |
| Bus.ModifyOutcome | src/lib.rs:197 | read-modify-write: a failed read writes nothing; a failed write changes no register; on success the trace gains the read and the write-back, the register holds the edit of its old value, and every other register is unchanged |
| Bus.Device.constructor | src/lib.rs:162-167 | a new device object has an empty trace and the given registers and faults |
| Bus.Device.Read | src/lib.rs:182 | the device read appends the access to the trace and returns the register's value or the oracle's error |
| Bus.Device.Write | src/lib.rs:332 | the device write appends the access and stores the value only when the access does not fail |
| Bus.Device.Modify | src/lib.rs:197 | the device modify is a read followed by the write-back of the edited value, stopping at a failed read |
| DriverSpec.FromInterfaceError | src/lib.rs:145-151 | `From<DeviceInterfaceError>` gives `Error::I2c` carrying the same I2C error |
| DriverSpec.ExpectedDeviceId | src/async_impl.rs:14-24 | `EXPECTED_DEVICE_ID` is the id of the first enabled chip feature in the order drv2604 (4), drv2604l (6), drv2605 (3), drv2605l (7), and is always a recognised id |
| Traffic.Issue | src/lib.rs:180-203 | issuing a plan extends the trace by a prefix of the plan; with no failure the whole plan, otherwise up to and including the failing access, whose error is returned |
| Traffic.FirstFault | src/lib.rs:312-319 | the index of the first failing access in a stretch of the trace is at most its length, and names a failing position when below it |
| Traffic.FirstFaultClear | src/lib.rs:312-319 | no access before the first failing one fails |
| Traffic.IssueByFirstFault | src/lib.rs:312-319 | with k the index of the first failing access, the plan issues entirely without error or exactly its first k+1 accesses with access k's error |
| Traffic.IssueAppend | src/lib.rs:197-200 | issuing two plans in sequence runs the second only if the first had no failure (the meaning of `?`) |
| Traffic.FollowsPlanByFirstFault | src/lib.rs:312-319 | following a plan means: all accesses and `Ok`, or the accesses up to the first failing one and `Err(I2c(e))` with that access's error |
| Traffic.Abort | src/lib.rs:182 | `?` on an error passes the state and the error on unchanged |
| Traffic.Compose | src/lib.rs:197-200 | a step run only after the first succeeded, with the first error passed on by `?`, follows the concatenated plan |
| Traffic.ReadFollowsPlan | src/lib.rs:225 | a register read is the one-access plan `[Read(r)]` |
| Traffic.WriteFollowsPlan | src/lib.rs:332 | a register write is the one-access plan `[Write(v)]` |
| Traffic.ModifyFollowsPlan | src/lib.rs:218 | a read-modify-write is the plan of the read and then the write-back of the edited value |
| SequencerProofs.SlotWrites | src/lib.rs:312-319 | the plan of a sequence write is one write per slot from the given index on, each slot's value to its own index |
| SequencerProofs.Overlay | src/lib.rs:312-319 | the slots after a partial sequence write: the new values in the written range, the old values elsewhere |
| SequencerProofs.SetWaveformEntryOutcome | src/lib.rs:261-303 | an index above 7 is rejected with `InvalidWaveform` before any bus traffic; otherwise exactly one write of that slot; on success only that slot changes, on failure no register changes; the cached mode never changes |
| SequencerProofs.WriteSlotsTraffic | src/lib.rs:312-319 | the slot-writing loops issue one write per slot in index order and stop at the first failing write |
| SequencerProofs.WriteSlotsState | src/lib.rs:312-319 | after the slot-writing loops, exactly the slots written before the first failure hold their new values, and the cached mode is unchanged |
| SequencerProofs.SetWaveformSequenceOutcome | src/lib.rs:306-322 | more than 8 entries is rejected with `InvalidWaveform` and nothing happens; otherwise 8 slot writes, the entries then terminators; on success the sequencer holds the padded sequence; on a failure at write k the slots 0..k-1 hold their new values, the rest are unchanged, and the error is that write's |
| SequencerProofs.SlotWritesOutcome | src/lib.rs:312-319 | the slot writes of a full sequencer either all succeed and set every slot, or return the first failing write's error after exactly that many accesses |
| SequencerProofs.SingleEffectPlan | src/lib.rs:325-328 | the traffic of `set_single_effect`: the effect to slot 0, then the terminator to slots 1..7 |
| SequencerProofs.SetSingleEffectOutcome | src/lib.rs:325-328 | `set_single_effect` issues 8 slot writes (the effect, then terminators) and on success the sequencer holds exactly those |
| SequencerProofs.SetSingleEffectState | src/lib.rs:325-328 | `set_single_effect` leaves the cache alone; the slots written before the first failed slot write hold the effect and terminators, the rest keep their old contents; on success the sequencer holds exactly the padded sequence |
| SequencerProofs.SetSingleEffectSlots | src/lib.rs:325-328 | after a successful `set_single_effect`, slot 0 holds the id modulo 128 and every other slot the terminator |
| SequencerProofs.SetSingleEffectEnumSlots | src/sync_impl.rs:160-163 | after a successful `set_single_effect_enum`, slot 0 holds the effect's discriminant, which is not the terminator, and every other slot the terminator |
| SequencerProofs.FirstFaultOkIsFull | src/lib.rs:306-322 | a sequence write succeeds only if none of its 8 writes failed, and then the sequencer holds the padded entries |
| ModeProofs.ModifyRegSucceeds | src/lib.rs:217-258 | a read-modify-write setter succeeds exactly when neither its read nor its write fails, and it issues one access when the read fails and two otherwise |
| ModeProofs.ModifyRegOutcome | src/lib.rs:217-258 | each read-modify-write setter reads its register and writes back the edited value; on success only that register changes, on failure none does; the cache is untouched |
| ModeProofs.SetModeOutcome | src/lib.rs:217-221 | `set_mode` changes only the mode field of MODE and caches the mode on success; on failure it changes neither registers nor cache |
| ModeProofs.SetThenGetMode | src/lib.rs:217-227 | after a successful `set_mode(m)`, a `get_mode` whose read succeeds returns m and the cache holds m |
| ModeProofs.GetModeReadsDevice | src/lib.rs:224-227 | `get_mode` reads MODE from the device: its result does not depend on the cached mode and it changes no register |
| ModeProofs.ResetOutcome | src/lib.rs:236-242 | `reset` sets the reset bit by read-modify-write and clears the cache only when the write succeeded; on failure nothing changes |
| ModeProofs.SetStandbyOutcome | src/lib.rs:230-233 | `set_standby` changes only the standby bit, and only on success |
| ModeProofs.StartInModeOutcome | src/lib.rs:396-409 | start: set the mode, then write GO only if that succeeded; a failed mode write is returned unchanged; a failed GO write after a successful mode write leaves the new mode selected and GO as it was; on success the mode and GO are set and the mode is cached |
| ModeProofs.StartAutoCalibrationOutcome | src/lib.rs:396-401 | `start_auto_calibration` selects auto-calibration, then sets GO; a failed mode write stops it; a failed GO write leaves auto-calibration selected and cached and nothing else changed |
| ModeProofs.StartDiagnosticsOutcome | src/lib.rs:404-409 | `start_diagnostics` selects diagnostics, then sets GO; a failed mode write stops it; a failed GO write leaves diagnostics selected and cached and nothing else changed |
| InitProofs.InitPlan | src/lib.rs:180-203 | the traffic of a successful init is 5 accesses, starting with the STATUS read |
| InitProofs.InitCheckedOutcome | src/lib.rs:180-203 | init: a failed STATUS read returns its I2C error; an id outside the accepted set returns `InvalidDeviceId` after only that read; otherwise it clears standby and selects internal trigger, and on success caches `Internal`; on any error the cache is unchanged |
| InitProofs.InitCheckedStages | src/lib.rs:196-200 | once the id is accepted: a failed standby access changes no register; a failed mode access after that leaves standby cleared and the mode as it was; init succeeds exactly when the four accesses after the STATUS read succeed, and then it has issued five |
| InitProofs.InitAcceptsRecognizedIds | src/lib.rs:186-194 | blocking init rejects with `InvalidDeviceId` exactly the ids outside {3, 4, 6, 7}, and then reports expected 3 and the found id |
| InitProofs.InitAsyncAcceptsOnlyExpectedId | src/async_impl.rs:32-54 | the async init rejects with `InvalidDeviceId` exactly the ids other than the build's `EXPECTED_DEVICE_ID`, and reports that id as expected |
| InitProofs.InitVariantsAgreeOnExpectedId | src/async_impl.rs:32-54 | when STATUS holds the build feature's own id, the async implementation's `init_async` gives exactly the same run (traffic, registers, cache, result) as the blocking `init` of src/lib.rs:180-203 |
| InitProofs.InitVariantsDiffer | src/async_impl.rs:37-42 | the variants disagree: a DRV2605 (id 3) passes blocking init but fails the drv2605l build's async init |
| InitProofs.OpenLoopEffectPlan | src/sync_impl.rs:53-58 | setting the open-loop bit and programming effect 1 is 10 accesses |
| InitProofs.ErmPlan | src/sync_impl.rs:50-58 | the configuration after init is 12 accesses |
| InitProofs.OpenLoopEffectOutcome | src/sync_impl.rs:53-58 | setting the open-loop bit and then programming effect 1 follows its plan; on success CONTROL3 has the open-loop bit set and the sequencer holds effect 1 then terminators |
| InitProofs.OpenLoopBitState | src/sync_impl.rs:53-55 | the CONTROL3 modify sets only the open-loop bit, and only on success |
| InitProofs.OpenLoopEffectTraffic | src/sync_impl.rs:53-58 | the open-loop bit and the effect are written in that order, stopping at the first failure |
| InitProofs.OpenLoopEffectStages | src/sync_impl.rs:53-58 | a failed CONTROL3 access changes no register; otherwise the open-loop bit is set and exactly the slots written before the first failed slot write hold effect 1 and terminators, the rest their old contents |
| InitProofs.ConfigureOpenLoopErmOutcome | src/sync_impl.rs:45-61 | after a failed init nothing more happens; after a successful one it selects ERM, sets open loop and programs effect 1, stopping at the first failure; on success exactly those fields change |
| InitProofs.ConfigureOpenLoopErmTraffic | src/sync_impl.rs:50-58 | after a successful init the configuration follows its 12-access plan |
| InitProofs.ConfigureOpenLoopErmState | src/sync_impl.rs:50-58 | the configuration leaves the cache alone and on success changes only the actuator bit, the open-loop bit and the sequencer |
| InitProofs.ConfigureOpenLoopErmStages | src/sync_impl.rs:50-58 | after a successful init: a failed feedback access changes no register; a failed CONTROL3 access leaves only the ERM actuator selected; after both, the open-loop bit is set too and the slots written before the first failed slot write hold the new sequence |
| InitProofs.ErmAllClear | src/sync_impl.rs:50-58 | when the feedback and CONTROL3 accesses all succeed, the set-up leaves the ERM actuator selected, the open-loop bit set, and the slots written before the first failed slot write holding effect 1 and terminators |
| InitProofs.ActuatorClear | src/sync_impl.rs:50 | with both its accesses clear, selecting the ERM actuator succeeds after two accesses and changes only that bit of the feedback register |
| InitProofs.ErmAfterActuator | src/sync_impl.rs:53-58 | once the ERM actuator is selected and the CONTROL3 accesses succeed, the open-loop bit is set and exactly the first `k` slots hold the new sequence, `k` being the number of slot writes that succeed |
| InitProofs.ActuatorState | src/sync_impl.rs:50 | selecting ERM changes only the actuator bit, and only on success |
| InitProofs.InitOpenLoopErmOutcome | src/sync_impl.rs:45-61 | `init_open_loop_erm` returns a failed init unchanged; for a recognised id it follows a 17-access plan; on success the mode is internal trigger and cached, standby is clear, the actuator is ERM, open loop is on, and the sequencer holds effect 1 |
| InitProofs.InitOpenLoopErmStages | src/sync_impl.rs:45-61 | after a successful init, whose registers are the old ones with standby cleared and Internal selected, a failure in the ERM set-up leaves the registers of the stage it stopped in, counted from init's five accesses |
| InitProofs.InitOpenLoopErmAsyncOutcome | src/async_impl.rs:57-76 | the async version returns a failed init unchanged, equals the blocking one when the id is the expected one, and on success leaves the same registers |
| ConfigProofs.WriteByteOutcome | src/lib.rs:349-370 | a whole-byte setter is one write; on success only that byte register changes; a failure is an I2C error and changes nothing |
| ConfigProofs.SetTimeOffsetOutcome | src/sync_impl.rs:236-278 | a timing-offset setter writes the offset's two's-complement byte; it fails only with an I2C error and succeeds whenever the write does; the byte read back as `i8` is the offset; no other byte register changes |
| ConfigProofs.SetFeedbackControlOutcome | src/lib.rs:381-393 | `set_feedback_control` sets loop gain, brake factor and `bemf_gain % 4` (below 4) in FEEDBACK_CONTROL and keeps its other fields; a failure changes nothing |
| ConfigProofs.SetActuatorTypeOutcome | src/lib.rs:373-378 | `set_actuator_type` changes only the ERM/LRA bit, and only on success |
| ConfigProofs.SetAudioToVibeControlOutcome | src/sync_impl.rs:283-293 | `set_audio_to_vibe_control` sets filter and peak time and keeps the other fields; a failure changes nothing |
| ConfigProofs.LibraryRegisterOutcome | src/lib.rs:245-258 | `set_library` and `set_high_impedance` each edit only their own field of LIBRARY_SELECTION by read-modify-write |
| ConfigProofs.PlaybackOutcome | src/lib.rs:331-346 | `go` and `stop` are one write of GO; on success only GO changes and `is_active` then reports the written value; a failed write changes no register; neither touches the cached mode; `is_active` is one read that changes nothing |
| ConfigProofs.StatusViewsAgree | src/async_impl.rs:79-89 | both `get_status` variants are the same single STATUS read; they succeed or fail together with the same error; the four shared flags agree and the extra two are the register's |
| Driver.Drv260x.constructor | src/lib.rs:162-167 | a new handle caches no mode |
| Driver.Drv260x.Read | src/lib.rs:182 | a register read with `?` conversion of the device error |
| Driver.Drv260x.Write | src/lib.rs:332 | a register write with `?` conversion of the device error |
| Driver.Drv260x.Modify | src/lib.rs:197 | a read-modify-write with `?` conversion of the device error |
| Driver.Drv260x.InitChecked | src/lib.rs:180-203 | the device-id check and start-up writes shared by the init variants, as `DriverSpec.InitChecked` |
| Driver.Drv260x.ConfigureOpenLoopErm | src/sync_impl.rs:47-60 | the steps of `init_open_loop_erm` after init, as `DriverSpec.ConfigureOpenLoopErm` |
| Driver.Drv260x.Init | src/lib.rs:180-203 | `init` leaves the state `DriverSpec.Init` describes |
| Driver.Drv260x.InitOpenLoopErm | src/sync_impl.rs:45-61 | `init_open_loop_erm` leaves the state `DriverSpec.InitOpenLoopErm` describes |
| Driver.Drv260x.GetStatus | src/lib.rs:206-214 | `get_status` as `DriverSpec.GetStatus` |
| Driver.Drv260x.SetMode | src/lib.rs:217-221 | `set_mode` as `DriverSpec.SetMode` |
| Driver.Drv260x.GetMode | src/lib.rs:224-227 | `get_mode` as `DriverSpec.GetMode` |
| Driver.Drv260x.SetStandby | src/lib.rs:230-233 | `set_standby` as `DriverSpec.SetStandby` |
| Driver.Drv260x.Reset | src/lib.rs:236-242 | `reset` as `DriverSpec.Reset` |
| Driver.Drv260x.SetLibrary | src/lib.rs:245-250 | `set_library` as `DriverSpec.SetLibrary` |
| Driver.Drv260x.SetHighImpedance | src/lib.rs:253-258 | `set_high_impedance` as `DriverSpec.SetHighImpedance` |
| Driver.Drv260x.SetWaveformEntry | src/lib.rs:261-303 | `set_waveform_entry` as `DriverSpec.SetWaveformEntry` |
| Driver.Drv260x.SetWaveformSequence | src/lib.rs:306-322 | the two loops of `set_waveform_sequence` leave the state `DriverSpec.SetWaveformSequence` describes (loop invariant: the remaining slot writes reach the same final run) |
| Driver.Drv260x.SetSingleEffect | src/lib.rs:325-328 | `set_single_effect` as `DriverSpec.SetSingleEffect` |
| Driver.Drv260x.SetSingleEffectEnum | src/sync_impl.rs:160-163 | `set_single_effect_enum` as `DriverSpec.SetSingleEffectEnum` |
| Driver.Drv260x.Go | src/lib.rs:331-334 | `go` as `DriverSpec.Go` |
| Driver.Drv260x.Stop | src/lib.rs:337-340 | `stop` as `DriverSpec.Stop` |
| Driver.Drv260x.IsActive | src/lib.rs:343-346 | `is_active` as `DriverSpec.IsActive` |
| Driver.Drv260x.SetRtpInput | src/lib.rs:349-354 | `set_rtp_input` writes the RTP input byte, as `DriverSpec.WriteByte` |
| Driver.Drv260x.SetRatedVoltage | src/lib.rs:357-362 | `set_rated_voltage` writes the rated-voltage byte |
| Driver.Drv260x.SetOverdriveClampVoltage | src/lib.rs:365-370 | `set_overdrive_clamp_voltage` writes the clamp byte |
| Driver.Drv260x.SetAudioToVibeMinInputLevel | src/sync_impl.rs:298-303 | writes the audio-to-vibe minimum input byte |
| Driver.Drv260x.SetAudioToVibeMaxInputLevel | src/sync_impl.rs:308-313 | writes the audio-to-vibe maximum input byte |
| Driver.Drv260x.SetAudioToVibeMinOutputDrive | src/sync_impl.rs:318-323 | writes the audio-to-vibe minimum drive byte |
| Driver.Drv260x.SetAudioToVibeMaxOutputDrive | src/sync_impl.rs:328-333 | writes the audio-to-vibe maximum drive byte |
| Driver.Drv260x.SetActuatorType | src/lib.rs:373-378 | `set_actuator_type` as `DriverSpec.SetActuatorType` |
| Driver.Drv260x.SetFeedbackControl | src/lib.rs:381-393 | `set_feedback_control` as `DriverSpec.SetFeedbackControl` |
| Driver.Drv260x.SetOverdriveTimeOffset | src/sync_impl.rs:236-241 | writes the offset's `u8` bit pattern to the overdrive time offset, as `DriverSpec.SetTimeOffset` |
| Driver.Drv260x.SetSustainTimeOffsetPositive | src/sync_impl.rs:248-253 | the same for the positive sustain offset |
| Driver.Drv260x.SetSustainTimeOffsetNegative | src/sync_impl.rs:260-265 | the same for the negative sustain offset |
| Driver.Drv260x.SetBrakeTimeOffset | src/sync_impl.rs:273-278 | the same for the brake time offset |
| Driver.Drv260x.SetAudioToVibeControl | src/sync_impl.rs:283-293 | `set_audio_to_vibe_control` as `DriverSpec.SetAudioToVibeControl` |
| Driver.Drv260x.StartAutoCalibration | src/lib.rs:396-401 | `start_auto_calibration` as `DriverSpec.StartAutoCalibration` |
| Driver.Drv260x.StartDiagnostics | src/lib.rs:404-409 | `start_diagnostics` as `DriverSpec.StartDiagnostics` |
| Driver.Drv260x.InitCheckedAsync | src/async_impl.rs:32-54 | the async init sequence, selecting the mode through `set_mode_async`, as `DriverSpec.InitChecked` |
| Driver.Drv260x.ConfigureOpenLoopErmAsync | src/async_impl.rs:62-73 | the steps of `init_open_loop_erm_async` after init, through `set_actuator_type_async` and `set_single_effect_async`, as `DriverSpec.ConfigureOpenLoopErm` |
| Driver.Drv260x.InitAsync | src/async_impl.rs:32-54 | `init_async` of the async implementation as `DriverSpec.InitAsync` (only the feature's own id) |
| Driver.Drv260x.InitAsyncAnyVariant | src/lib.rs:418-444 | `init_async` of the crate root accepts the same ids as blocking init and leaves the state `DriverSpec.Init` describes |
| Driver.Drv260x.InitOpenLoopErmAsync | src/async_impl.rs:57-76 | `init_open_loop_erm_async` as `DriverSpec.InitOpenLoopErmAsync` |
| Driver.Drv260x.GetStatusAsync | src/lib.rs:447-455 | the crate root's `get_status_async`, the same four-field status as `get_status` |
| Driver.Drv260x.GetStatusFullAsync | src/async_impl.rs:79-89 | the async implementation's `get_status_async`, with the feedback-status and illegal-address flags |
| Driver.Drv260x.SetModeAsync | src/lib.rs:458-465 | `set_mode_async` follows the same spec as `set_mode` |
| Driver.Drv260x.GetModeAsync | src/lib.rs:468-471 | `get_mode_async` follows the same spec as `get_mode` |
| Driver.Drv260x.SetStandbyAsync | src/lib.rs:474-480 | `set_standby_async` follows the same spec as `set_standby` |
| Driver.Drv260x.ResetAsync | src/lib.rs:483-492 | `reset_async` follows the same spec as `reset` |
| Driver.Drv260x.SetLibraryAsync | src/lib.rs:495-501 | `set_library_async` follows the same spec as `set_library` |
| Driver.Drv260x.SetHighImpedanceAsync | src/lib.rs:504-510 | `set_high_impedance_async` follows the same spec as `set_high_impedance` |
| Driver.Drv260x.SetWaveformEntryAsync | src/lib.rs:513-599 | `set_waveform_entry_async` follows the same spec as `set_waveform_entry` |
| Driver.Drv260x.SetWaveformSequenceAsync | src/lib.rs:602-622 | `set_waveform_sequence_async` follows the same spec as `set_waveform_sequence` |
| Driver.Drv260x.SetSingleEffectAsync | src/lib.rs:625-628 | `set_single_effect_async` follows the same spec as `set_single_effect` |
| Driver.Drv260x.SetSingleEffectEnumAsync | src/async_impl.rs:337-340 | `set_single_effect_enum_async` follows the same spec as `set_single_effect_enum` |
| Driver.Drv260x.GoAsync | src/lib.rs:631-634 | `go_async` follows the same spec as `go` |
| Driver.Drv260x.StopAsync | src/lib.rs:637-643 | `stop_async` follows the same spec as `stop` |
| Driver.Drv260x.IsActiveAsync | src/lib.rs:646-649 | `is_active_async` follows the same spec as `is_active` |
| Driver.Drv260x.SetRtpInputAsync | src/lib.rs:652-658 | `set_rtp_input_async` follows the same spec as `set_rtp_input` |
| Driver.Drv260x.SetRatedVoltageAsync | src/lib.rs:661-667 | `set_rated_voltage_async` follows the same spec as `set_rated_voltage` |
| Driver.Drv260x.SetOverdriveClampVoltageAsync | src/lib.rs:670-676 | `set_overdrive_clamp_voltage_async` follows the same spec as `set_overdrive_clamp_voltage` |
| Driver.Drv260x.SetAudioToVibeMinInputLevelAsync | src/async_impl.rs:359-368 | the async minimum-input setter follows the blocking one's spec |
| Driver.Drv260x.SetAudioToVibeMaxInputLevelAsync | src/async_impl.rs:371-380 | the async maximum-input setter follows the blocking one's spec |
| Driver.Drv260x.SetAudioToVibeMinOutputDriveAsync | src/async_impl.rs:383-392 | the async minimum-drive setter follows the blocking one's spec |
| Driver.Drv260x.SetAudioToVibeMaxOutputDriveAsync | src/async_impl.rs:395-404 | the async maximum-drive setter follows the blocking one's spec |
| Driver.Drv260x.SetActuatorTypeAsync | src/lib.rs:679-685 | `set_actuator_type_async` follows the same spec as `set_actuator_type` |
| Driver.Drv260x.SetFeedbackControlAsync | src/lib.rs:688-703 | `set_feedback_control_async` follows the same spec as `set_feedback_control` |
| Driver.Drv260x.SetOverdriveTimeOffsetAsync | src/async_impl.rs:263-269 | the async overdrive-offset setter follows the blocking one's spec |
| Driver.Drv260x.SetSustainTimeOffsetPositiveAsync | src/async_impl.rs:272-281 | the async positive-sustain setter follows the blocking one's spec |
| Driver.Drv260x.SetSustainTimeOffsetNegativeAsync | src/async_impl.rs:284-293 | the async negative-sustain setter follows the blocking one's spec |
| Driver.Drv260x.SetBrakeTimeOffsetAsync | src/async_impl.rs:296-302 | the async brake-offset setter follows the blocking one's spec |
| Driver.Drv260x.SetAudioToVibeControlAsync | src/async_impl.rs:343-356 | `set_audio_to_vibe_control_async` follows the same spec as `set_audio_to_vibe_control` |
| Driver.Drv260x.StartAutoCalibrationAsync | src/lib.rs:706-711 | `start_auto_calibration_async` follows the same spec as `start_auto_calibration` |
| Driver.Drv260x.StartDiagnosticsAsync | src/lib.rs:714-719 | `start_diagnostics_async` follows the same spec as `start_diagnostics` |

## Left out

- The register map and its bit layout are generated from `device.yaml`, which is not part of this model. Registers are modelled by their decoded fields, and the generated field enums (`LibrarySelection`, `LoopGain`, `FbBrakeFactor`, `AthFilter`, `AthPeakTime`, and the CONTROL3 and audio-to-vibe fields the driver never touches) are opaque codes.
- The driver's register-level trace is not connected to the byte frames of `ll.rs`: register addresses and field encodings come from the generated code. `Interface` proves what each register access puts on the wire, independently.
- The I2C peripheral itself is an oracle: a failure map and, for reads, a response function. Which errors occur and which bytes a device returns are parameters.
- The I2C oracle makes two assumptions that the `embedded-hal` I2C traits do not promise. First, a write whose transaction fails is never latched by the device, so every "a failure changes no register" clause rests on it. Second, a failed `write_read` leaves the read buffer untouched, which Interface.DeviceInterface.ReadRegister's failure clause rests on. A real bus can fail after some bytes were acknowledged or received; such partial effects are not modelled.
- Async suspension, wakers and cancellation are not modelled. Each async method runs as the same sequence of register accesses as its blocking twin.
- Hardware side effects are not modelled: the reset bit clearing itself, GO clearing when playback ends, calibration and diagnostic results appearing in STATUS. Registers change only through the driver's writes.
- SequencerProofs.SetWaveformEntryOutcome: a raw `WaveformEntry` with a value above 127 can be built field by field and passed to `set_waveform_entry`. What the generated 7-bit field setter does with the eighth bit is not modelled; the slot stores the entry as given.
- `Error::NotReady`, `Error::InvalidConfig` and `Error::Timeout` are declared but no operation returns them. They appear in `DriverSpec.Error` and nowhere else.
- `Drv260x::device()` hands out the generated device object for arbitrary register access. It is left out because it bypasses the driver's state.
- Interface.DeviceInterface.WriteRegister: a payload longer than 8 bytes makes the source panic when it copies the payload into its 9-byte frame (src/ll.rs:56). The model requires at most 8 bytes instead of modelling the panic; every DRV260x register is one byte wide, so the driver never sends more. WriteRegisterAsync has the same requirement.
- DriverSpec.ExpectedDeviceId: a build with no chip feature enabled does not compile (`EXPECTED_DEVICE_ID` is undefined), so the function requires at least one feature.
- The `cfg` gating of the DRV2605-only async methods (library selection, effect enum, audio-to-vibe) is not modelled: these methods are always present.
- `defmt` and `Debug` formatting, the crate-level documentation example and the example programs are left out.
