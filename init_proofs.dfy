/**
 * Initialisation: the device-id check, the accepted ids of the blocking and
 * the async variants, the standby-then-mode sequence, and the open-loop ERM
 * set-up that runs only after a successful init.
 */
module InitProofs {
  import opened Wrappers
  import opened Primitives
  import opened Waveform
  import opened Registers
  import opened Bus
  import opened DriverSpec
  import opened Traffic
  import opened SequencerProofs
  import opened ModeProofs

  /** The trace of a successful init: read STATUS, clear standby, select Internal. */
  function InitPlan(d: DeviceRegs): (plan: seq<Access>)
    ensures |plan| == 5
    ensures plan[0] == Read(Status)
  {
    [Read(Status), Read(Mode), Write(ModeVal(d.mode.(standby := false)))]
      + ModePlan(d.(mode := d.mode.(standby := false)), Internal)
  }

  /** The state after only the STATUS read. */
  function AfterStatusRead(s: DriverState): DriverState
  {
    s.(bus := s.bus.(trace := s.bus.trace + [Read(Status)]))
  }

  /**
   * The shared init sequence. A failed STATUS read is returned at once. An id
   * outside `accepted` is reported with `expected` and the id found, after
   * the STATUS read only: nothing is written and the cache is unchanged.
   * Otherwise standby is cleared and then Internal is selected, in that order,
   * stopping at the first failure; success leaves the cache at Internal and
   * any failure leaves it as it was.
   */
  lemma InitCheckedOutcome(s: DriverState, f: Faults, accepted: set<Byte>, expected: Byte)
    ensures var r := InitChecked(s, f, accepted, expected);
      var n := |s.bus.trace|;
      var id := s.bus.regs.status.deviceId;
      && (n in f ==> r == Run(AfterStatusRead(s), Err(I2c(f[n]))))
      && (n !in f && id !in accepted ==> r == Run(AfterStatusRead(s), Err(InvalidDeviceId(expected, id))))
      && (n !in f && id in accepted ==>
            && FollowsPlan(s, f, InitPlan(s.bus.regs), r)
            && (r.result.Ok? ==>
                  && r.state.currentMode == Some(Internal)
                  && r.state.bus.regs == s.bus.regs.(mode := s.bus.regs.mode.(standby := false, mode := Internal))))
      && (r.result.Err? ==> r.state.currentMode == s.currentMode)
  {
    var n := |s.bus.trace|;
    var id := s.bus.regs.status.deviceId;
    var r := InitChecked(s, f, accepted, expected);
    var rd := ReadReg(s, f, Status);
    ReadFollowsPlan(s, f, Status);
    if n !in f && id in accepted {
      var d := s.bus.regs;
      var sb := ModifyReg(rd.state, f, StandbyField(false));
      ModifyRegOutcome(rd.state, f, StandbyField(false));
      var rest := [Read(Mode), Write(ModeVal(d.mode.(standby := false)))];
      var d' := d.(mode := d.mode.(standby := false));
      if sb.result.Ok? {
        SetModeOutcome(sb.state, f, Internal);
        assert sb.state.bus.regs == d';
      }
      Compose(rd.state, f, rest, sb, ModePlan(d', Internal), r, r);
      Compose(s, f, [Read(Status)], rd, rest + ModePlan(d', Internal), r, r);
      assert [Read(Status)] + (rest + ModePlan(d', Internal)) == InitPlan(d);
    }
  }

  /**
   * What a failed init leaves behind once the id was accepted (`n` is the
   * position of the STATUS read): a failed standby access writes nothing, a
   * failed mode access after standby was cleared leaves standby cleared and
   * the mode as it was, and init succeeds exactly when all four accesses
   * after the STATUS read succeed.
   */
  lemma InitCheckedStages(s: DriverState, f: Faults, accepted: set<Byte>, expected: Byte)
    ensures var r := InitChecked(s, f, accepted, expected);
      var n := |s.bus.trace|;
      var d := s.bus.regs;
      n !in f && d.status.deviceId in accepted ==>
        && (!Clear(f, n + 1, 2) ==> r.result.Err? && r.state.bus.regs == d)
        && (Clear(f, n + 1, 2) && !Clear(f, n + 3, 2) ==>
              r.result.Err? && r.state.bus.regs == d.(mode := d.mode.(standby := false)))
        && (r.result.Ok? <==> Clear(f, n + 1, 4))
        && (r.result.Ok? ==> |r.state.bus.trace| == n + 5)
  {
    var n := |s.bus.trace|;
    var d := s.bus.regs;
    if n !in f && d.status.deviceId in accepted {
      var rd := ReadReg(s, f, Status);
      ReadFollowsPlan(s, f, Status);
      assert rd.state == AfterStatusRead(s);
      var sb := ModifyReg(rd.state, f, StandbyField(false));
      ModifyRegState(rd.state, f, StandbyField(false));
      ModifyRegSucceeds(rd.state, f, StandbyField(false));
      if sb.result.Ok? {
        ModifyRegState(sb.state, f, ModeField(Internal));
        ModifyRegSucceeds(sb.state, f, ModeField(Internal));
        assert sb.state.bus.regs == d.(mode := d.mode.(standby := false));
      }
      if Clear(f, n + 1, 2) && Clear(f, n + 3, 2) {
        assert Clear(f, n + 1, 4);
      }
    }
  }

  /**
   * The blocking `init` (and the crate root's `init_async`) accepts exactly
   * the ids 3, 4, 6 and 7: once STATUS was read, it reports an invalid id,
   * always naming 3 as expected, if and only if the id is not one of them.
   */
  lemma InitAcceptsRecognizedIds(s: DriverState, f: Faults)
    requires |s.bus.trace| !in f
    ensures var r := Init(s, f);
      var id := s.bus.regs.status.deviceId;
      && (r.result.Err? && r.result.error.InvalidDeviceId? <==> id !in {3, 4, 6, 7})
      && (id !in {3, 4, 6, 7} ==> r == Run(AfterStatusRead(s), Err(InvalidDeviceId(3, id))))
  {
    var r := Init(s, f);
    InitCheckedOutcome(s, f, RecognizedDeviceIds, ReportedExpectedId);
    if s.bus.regs.status.deviceId in RecognizedDeviceIds {
      IssueByFirstFault(f, s.bus.trace, InitPlan(s.bus.regs));
      assert r.result.Err? ==> r.result.error.I2c?;
    }
  }

  /**
   * `init_async` of the async implementation accepts only the id of its chip
   * feature: once STATUS was read, it reports an invalid id naming that
   * expected id if and only if the id found differs, and then writes nothing.
   */
  lemma InitAsyncAcceptsOnlyExpectedId(s: DriverState, f: Faults, features: set<Chip>)
    requires features != {}
    requires |s.bus.trace| !in f
    ensures var r := InitAsync(s, f, features);
      var id := s.bus.regs.status.deviceId;
      var expected := ExpectedDeviceId(features);
      && (r.result.Err? && r.result.error.InvalidDeviceId? <==> id != expected)
      && (id != expected ==> r == Run(AfterStatusRead(s), Err(InvalidDeviceId(expected, id))))
  {
    var r := InitAsync(s, f, features);
    var expected := ExpectedDeviceId(features);
    InitCheckedOutcome(s, f, {expected}, expected);
    if s.bus.regs.status.deviceId == expected {
      IssueByFirstFault(f, s.bus.trace, InitPlan(s.bus.regs));
      assert r.result.Err? ==> r.result.error.I2c?;
    }
  }

  /**
   * The two init variants agree wherever the async one gets past the id
   * check: the feature's id is one the blocking init accepts, so both issue
   * the same traffic with the same outcome.
   */
  lemma InitVariantsAgreeOnExpectedId(s: DriverState, f: Faults, features: set<Chip>)
    requires features != {}
    requires s.bus.regs.status.deviceId == ExpectedDeviceId(features)
    ensures InitAsync(s, f, features) == Init(s, f)
  {
  }

  /**
   * The variants differ: a DRV2605 (id 3) on a build for the DRV2605L alone
   * passes the blocking init's id check but is rejected by the async one.
   */
  lemma InitVariantsDiffer(s: DriverState, f: Faults)
    requires |s.bus.trace| !in f && s.bus.regs.status.deviceId == 3
    ensures InitAsync(s, f, {Drv2605L}).result == Err(InvalidDeviceId(7, 3))
    ensures !(Init(s, f).result.Err? && Init(s, f).result.error.InvalidDeviceId?)
  {
    InitAcceptsRecognizedIds(s, f);
  }

  /** Select the ERM actuator by read-modify-write of the feedback register. */
  function ActuatorPlan(d: DeviceRegs): seq<Access>
  {
    [Read(FeedbackControl), Write(FeedbackVal(d.feedback.(nErmLra := false)))]
  }

  /** Set the open-loop bit, then program effect 1 followed by stops. */
  function OpenLoopEffectPlan(d: DeviceRegs): (plan: seq<Access>)
    ensures |plan| == 10
  {
    [Read(Control3), Write(Control3Val(d.control3.(ermOpenLoop := true)))] + SingleEffectPlan(EffectEntry(1))
  }

  /** The open-loop ERM steps after init: ERM actuator, open-loop bit, then effect 1 followed by stops. */
  function ErmPlan(d: DeviceRegs): (plan: seq<Access>)
    ensures |plan| == 12
  {
    ActuatorPlan(d) + OpenLoopEffectPlan(d)
  }

  /** Open-loop bit, then effect 1: on success both settings are in place and nothing else changed. */
  lemma OpenLoopEffectOutcome(s: DriverState, f: Faults)
    ensures var r := OpenLoopEffect(s, f);
      var d := s.bus.regs;
      && FollowsPlan(s, f, OpenLoopEffectPlan(d), r)
      && r.state.currentMode == s.currentMode
      && (r.result.Ok? ==>
            r.state.bus.regs == d.(control3 := d.control3.(ermOpenLoop := true),
                                   slots := Padded([EffectEntry(1), StopEntry()])))
  {
    OpenLoopEffectTraffic(s, f);
    var r := OpenLoopEffect(s, f);
    var d := s.bus.regs;
    var ol := ModifyReg(s, f, ErmOpenLoopField(true));
    OpenLoopBitState(s, f);
    if ol.result.Ok? {
      SetSingleEffectState(ol.state, f, 1);
      if r.result.Ok? {
        assert r == SetSingleEffect(ol.state, f, 1);
        ControlThenSlots(d, ol.state.bus.regs, r.state.bus.regs,
                         d.control3.(ermOpenLoop := true), Padded([EffectEntry(1), StopEntry()]));
      }
    }
  }

  /** Setting the open-loop bit changes that bit of CONTROL3 only. */
  lemma OpenLoopBitState(s: DriverState, f: Faults)
    ensures var ol := ModifyReg(s, f, ErmOpenLoopField(true));
      && ol.state.currentMode == s.currentMode
      && (ol.result.Ok? ==> ol.state.bus.regs == s.bus.regs.(control3 := s.bus.regs.control3.(ermOpenLoop := true)))
      && (ol.result.Err? ==> ol.state.bus.regs == s.bus.regs)
  {
    ModifyRegState(s, f, ErmOpenLoopField(true));
  }

  /**
   * What the open-loop bit and effect 1 steps leave behind, from position
   * `n`: a failed CONTROL3 access writes nothing; otherwise the bit is set
   * and the slots written before the first failed slot write hold the new
   * sequence, the rest their old contents.
   */
  lemma OpenLoopEffectStages(s: DriverState, f: Faults)
    ensures var r := OpenLoopEffect(s, f);
      var n := |s.bus.trace|;
      var d := s.bus.regs;
      && (!Clear(f, n, 2) ==> r.result.Err? && r.state.bus.regs == d)
      && (Clear(f, n, 2) ==>
            r.state.bus.regs == d.(control3 := d.control3.(ermOpenLoop := true),
                                   slots := Overlay(d.slots, Padded([EffectEntry(1), StopEntry()]),
                                                    0, FirstFault(f, n + 2, SlotCount))))
  {
    var r := OpenLoopEffect(s, f);
    var n := |s.bus.trace|;
    var d := s.bus.regs;
    var ol := ModifyReg(s, f, ErmOpenLoopField(true));
    OpenLoopBitState(s, f);
    ModifyRegSucceeds(s, f, ErmOpenLoopField(true));
    if ol.result.Ok? {
      SetSingleEffectState(ol.state, f, 1);
      assert r == SetSingleEffect(ol.state, f, 1);
      ControlThenSlots(d, ol.state.bus.regs, r.state.bus.regs, d.control3.(ermOpenLoop := true),
                       Overlay(d.slots, Padded([EffectEntry(1), StopEntry()]), 0, FirstFault(f, n + 2, SlotCount)));
    }
  }

  /** The traffic of the open-loop bit and effect 1 steps. */
  lemma OpenLoopEffectTraffic(s: DriverState, f: Faults)
    ensures FollowsPlan(s, f, OpenLoopEffectPlan(s.bus.regs), OpenLoopEffect(s, f))
  {
    var r := OpenLoopEffect(s, f);
    var d := s.bus.regs;
    var ol := ModifyReg(s, f, ErmOpenLoopField(true));
    ModifyFollowsPlan(s, f, ErmOpenLoopField(true));
    if ol.result.Ok? {
      SetSingleEffectOutcome(ol.state, f, 1);
    }
    var stepB := [Read(Control3), Write(Control3Val(d.control3.(ermOpenLoop := true)))];
    Compose(s, f, stepB, ol, SingleEffectPlan(EffectEntry(1)), r, r);
  }

  /** A CONTROL3 write followed by a sequencer write changes exactly those two registers. */
  lemma ControlThenSlots(d: DeviceRegs, mid: DeviceRegs, last: DeviceRegs, control3: Control3Reg, slots: Sequencer)
    requires mid == d.(control3 := control3)
    requires last == mid.(slots := slots)
    ensures last == d.(control3 := control3, slots := slots)
  {
  }

  /**
   * The steps of `init_open_loop_erm` after init: a failed init is returned
   * as it is; otherwise the ERM actuator is selected, the open-loop bit set
   * and effect 1 programmed, in that order, stopping at the first failure.
   * Success leaves those three settings in the registers, everything else
   * and the cache as init left them.
   */
  lemma ConfigureOpenLoopErmOutcome(init: Run<()>, f: Faults)
    ensures var r := ConfigureOpenLoopErm(init, f);
      var d := init.state.bus.regs;
      && (init.result.Err? ==> r == init)
      && (init.result.Ok? ==> FollowsPlan(init.state, f, ErmPlan(d), r))
      && r.state.currentMode == init.state.currentMode
      && (r.result.Ok? ==>
            r.state.bus.regs == d.(feedback := d.feedback.(nErmLra := false),
                                   control3 := d.control3.(ermOpenLoop := true),
                                   slots := Padded([EffectEntry(1), StopEntry()])))
  {
    if init.result.Ok? {
      ConfigureOpenLoopErmTraffic(init, f);
      ConfigureOpenLoopErmState(init, f);
    }
  }

  /** The traffic of the ERM set-up after a successful init. */
  lemma ConfigureOpenLoopErmTraffic(init: Run<()>, f: Faults)
    requires init.result.Ok?
    ensures FollowsPlan(init.state, f, ErmPlan(init.state.bus.regs), ConfigureOpenLoopErm(init, f))
  {
    var r := ConfigureOpenLoopErm(init, f);
    var d := init.state.bus.regs;
    var act := SetActuatorType(init.state, f, false);
    ModifyFollowsPlan(init.state, f, NErmLraField(false));
    if act.result.Ok? {
      ActuatorState(init.state, f);
      OpenLoopEffectTraffic(act.state, f);
      assert OpenLoopEffectPlan(act.state.bus.regs) == OpenLoopEffectPlan(d);
    }
    Compose(init.state, f, ActuatorPlan(d), act, OpenLoopEffectPlan(d), r, r);
  }

  /** The state the ERM set-up leaves after a successful init. */
  lemma ConfigureOpenLoopErmState(init: Run<()>, f: Faults)
    requires init.result.Ok?
    ensures var r := ConfigureOpenLoopErm(init, f);
      var d := init.state.bus.regs;
      && r.state.currentMode == init.state.currentMode
      && (r.result.Ok? ==>
            r.state.bus.regs == d.(feedback := d.feedback.(nErmLra := false),
                                   control3 := d.control3.(ermOpenLoop := true),
                                   slots := Padded([EffectEntry(1), StopEntry()])))
  {
    var r := ConfigureOpenLoopErm(init, f);
    var d := init.state.bus.regs;
    var act := SetActuatorType(init.state, f, false);
    ActuatorState(init.state, f);
    if act.result.Ok? {
      OpenLoopEffectOutcome(act.state, f);
      if r.result.Ok? {
        assert r == OpenLoopEffect(act.state, f);
        FeedbackThenRest(d, act.state.bus.regs, r.state.bus.regs, d.feedback.(nErmLra := false),
                         d.control3.(ermOpenLoop := true), Padded([EffectEntry(1), StopEntry()]));
      }
    }
  }

  /**
   * What the ERM set-up leaves behind after a successful init, from position
   * `n`: a failed feedback access writes nothing; a failed CONTROL3 access
   * leaves only the ERM actuator selected; after both, the open-loop bit is
   * set too and the slots written before the first failed slot write hold
   * the new sequence, the rest their old contents.
   */
  lemma ConfigureOpenLoopErmStages(init: Run<()>, f: Faults)
    requires init.result.Ok?
    ensures var r := ConfigureOpenLoopErm(init, f);
      var n := |init.state.bus.trace|;
      var d := init.state.bus.regs;
      && (!Clear(f, n, 2) ==> r.result.Err? && r.state.bus.regs == d)
      && (Clear(f, n, 2) && !Clear(f, n + 2, 2) ==>
            r.result.Err? && r.state.bus.regs == d.(feedback := d.feedback.(nErmLra := false)))
      && (Clear(f, n, 4) ==>
            r.state.bus.regs == d.(feedback := d.feedback.(nErmLra := false),
                                   control3 := d.control3.(ermOpenLoop := true),
                                   slots := Overlay(d.slots, Padded([EffectEntry(1), StopEntry()]),
                                                    0, FirstFault(f, n + 4, SlotCount))))
  {
    var r := ConfigureOpenLoopErm(init, f);
    var n := |init.state.bus.trace|;
    var d := init.state.bus.regs;
    var act := SetActuatorType(init.state, f, false);
    ActuatorState(init.state, f);
    ModifyRegSucceeds(init.state, f, NErmLraField(false));
    if act.result.Ok? {
      assert |act.state.bus.trace| == n + 2;
      assert r == OpenLoopEffect(act.state, f);
      OpenLoopEffectStages(act.state, f);
    }
    if Clear(f, n, 4) {
      ErmAllClear(init, f);
    }
  }

  /** The last stage of ConfigureOpenLoopErmStages: the feedback and CONTROL3 accesses all succeed. */
  lemma ErmAllClear(init: Run<()>, f: Faults)
    requires init.result.Ok? && Clear(f, |init.state.bus.trace|, 4)
    ensures var r := ConfigureOpenLoopErm(init, f);
      var n := |init.state.bus.trace|;
      var d := init.state.bus.regs;
      r.state.bus.regs == d.(feedback := d.feedback.(nErmLra := false),
                             control3 := d.control3.(ermOpenLoop := true),
                             slots := Overlay(d.slots, Padded([EffectEntry(1), StopEntry()]),
                                              0, FirstFault(f, n + 4, SlotCount)))
  {
    var n := |init.state.bus.trace|;
    var d := init.state.bus.regs;
    var act := SetActuatorType(init.state, f, false);
    assert Clear(f, n, 2) && Clear(f, n + 2, 2);
    ActuatorClear(init.state, f);
    ErmAfterActuator(act.state, d, f, FirstFault(f, n + 4, SlotCount));
  }

  /** With both its accesses clear, selecting the ERM actuator succeeds and sets only that bit. */
  lemma ActuatorClear(s: DriverState, f: Faults)
    requires Clear(f, |s.bus.trace|, 2)
    ensures var act := SetActuatorType(s, f, false);
      && act.result.Ok?
      && |act.state.bus.trace| == |s.bus.trace| + 2
      && act.state.bus.regs == s.bus.regs.(feedback := s.bus.regs.feedback.(nErmLra := false))
  {
    ActuatorState(s, f);
    ModifyRegSucceeds(s, f, NErmLraField(false));
  }

  /**
   * The open-loop stages once the ERM actuator is selected, over the register
   * file before it; `k` is the number of slot writes that succeed.
   */
  lemma ErmAfterActuator(s: DriverState, d: DeviceRegs, f: Faults, k: nat)
    requires s.bus.regs == d.(feedback := d.feedback.(nErmLra := false))
    requires Clear(f, |s.bus.trace|, 2)
    requires k == FirstFault(f, |s.bus.trace| + 2, SlotCount)
    ensures var r := OpenLoopEffect(s, f);
      r.state.bus.regs == d.(feedback := d.feedback.(nErmLra := false),
                             control3 := d.control3.(ermOpenLoop := true),
                             slots := Overlay(d.slots, Padded([EffectEntry(1), StopEntry()]), 0, k))
  {
    var r := OpenLoopEffect(s, f);
    OpenLoopEffectStages(s, f);
    FeedbackThenRest(d, s.bus.regs, r.state.bus.regs, d.feedback.(nErmLra := false),
                     d.control3.(ermOpenLoop := true), Overlay(d.slots, Padded([EffectEntry(1), StopEntry()]), 0, k));
  }

  /** Selecting the ERM actuator changes that bit of the feedback register only. */
  lemma ActuatorState(s: DriverState, f: Faults)
    ensures var act := SetActuatorType(s, f, false);
      && act.state.currentMode == s.currentMode
      && (act.result.Ok? ==> act.state.bus.regs == s.bus.regs.(feedback := s.bus.regs.feedback.(nErmLra := false)))
      && (act.result.Err? ==> act.state.bus.regs == s.bus.regs)
  {
    ModifyRegState(s, f, NErmLraField(false));
  }

  /** A feedback write followed by the CONTROL3 and sequencer writes changes exactly those three registers. */
  lemma FeedbackThenRest(d: DeviceRegs, mid: DeviceRegs, last: DeviceRegs,
                         feedback: FeedbackReg, control3: Control3Reg, slots: Sequencer)
    requires mid == d.(feedback := feedback)
    requires last == mid.(control3 := mid.control3.(ermOpenLoop := true), slots := slots)
    requires control3 == d.control3.(ermOpenLoop := true)
    ensures last == d.(feedback := feedback, control3 := control3, slots := slots)
  {
  }

  /**
   * `init_open_loop_erm`: when STATUS reads a recognised id, the whole
   * operation issues init's five accesses and then the twelve of the ERM
   * set-up, stopping at the first failure; a failed init skips every later
   * step; success leaves the Internal mode selected, standby cleared, the ERM
   * actuator and open loop configured and effect 1 programmed.
   */
  lemma InitOpenLoopErmOutcome(s: DriverState, f: Faults)
    ensures var r := InitOpenLoopErm(s, f);
      var i := Init(s, f);
      var d := s.bus.regs;
      && (i.result.Err? ==> r == i)
      && (|s.bus.trace| !in f && d.status.deviceId in RecognizedDeviceIds ==>
            FollowsPlan(s, f, InitPlan(d) + ErmPlan(d), r) && |InitPlan(d) + ErmPlan(d)| == 17)
      && (r.result.Ok? ==>
            && r.state.currentMode == Some(Internal)
            && r.state.bus.regs == d.(mode := d.mode.(standby := false, mode := Internal),
                                      feedback := d.feedback.(nErmLra := false),
                                      control3 := d.control3.(ermOpenLoop := true),
                                      slots := Padded([EffectEntry(1), StopEntry()])))
  {
    var i := Init(s, f);
    var r := InitOpenLoopErm(s, f);
    InitCheckedOutcome(s, f, RecognizedDeviceIds, ReportedExpectedId);
    ConfigureOpenLoopErmOutcome(i, f);
    if |s.bus.trace| !in f && s.bus.regs.status.deviceId in RecognizedDeviceIds {
      if i.result.Ok? {
        assert ErmPlan(i.state.bus.regs) == ErmPlan(s.bus.regs);
      }
      Compose(s, f, InitPlan(s.bus.regs), i, ErmPlan(s.bus.regs), r, r);
    }
  }

  /**
   * What `init_open_loop_erm` leaves behind when a step after init fails:
   * init ran its five accesses from position `n` and left standby cleared
   * and Internal selected, and the ERM set-up then stops in one of the
   * stages of ConfigureOpenLoopErmStages, from position `n + 5`.
   */
  lemma InitOpenLoopErmStages(s: DriverState, f: Faults)
    ensures var r := InitOpenLoopErm(s, f);
      var i := Init(s, f);
      var n := |s.bus.trace|;
      var d := s.bus.regs.(mode := s.bus.regs.mode.(standby := false, mode := Internal));
      i.result.Ok? ==>
        && i.state.bus.regs == d
        && (!Clear(f, n + 5, 2) ==> r.result.Err? && r.state.bus.regs == d)
        && (Clear(f, n + 5, 2) && !Clear(f, n + 7, 2) ==>
              r.result.Err? && r.state.bus.regs == d.(feedback := d.feedback.(nErmLra := false)))
        && (Clear(f, n + 5, 4) ==>
              r.state.bus.regs == d.(feedback := d.feedback.(nErmLra := false),
                                     control3 := d.control3.(ermOpenLoop := true),
                                     slots := Overlay(d.slots, Padded([EffectEntry(1), StopEntry()]),
                                                      0, FirstFault(f, n + 9, SlotCount))))
  {
    var i := Init(s, f);
    if i.result.Ok? {
      InitCheckedOutcome(s, f, RecognizedDeviceIds, ReportedExpectedId);
      InitCheckedStages(s, f, RecognizedDeviceIds, ReportedExpectedId);
      ConfigureOpenLoopErmStages(i, f);
    }
  }

  /**
   * `init_open_loop_erm_async`: the same steps in the same order after the
   * async init, which accepts only the feature's id.
   */
  lemma InitOpenLoopErmAsyncOutcome(s: DriverState, f: Faults, features: set<Chip>)
    requires features != {}
    ensures var r := InitOpenLoopErmAsync(s, f, features);
      var i := InitAsync(s, f, features);
      var d := s.bus.regs;
      && (i.result.Err? ==> r == i)
      && (|s.bus.trace| !in f && d.status.deviceId == ExpectedDeviceId(features) ==>
            FollowsPlan(s, f, InitPlan(d) + ErmPlan(d), r) && r == InitOpenLoopErm(s, f))
      && (r.result.Ok? ==>
            && r.state.currentMode == Some(Internal)
            && r.state.bus.regs == d.(mode := d.mode.(standby := false, mode := Internal),
                                      feedback := d.feedback.(nErmLra := false),
                                      control3 := d.control3.(ermOpenLoop := true),
                                      slots := Padded([EffectEntry(1), StopEntry()])))
  {
    var i := InitAsync(s, f, features);
    var r := InitOpenLoopErmAsync(s, f, features);
    var expected := ExpectedDeviceId(features);
    InitCheckedOutcome(s, f, {expected}, expected);
    ConfigureOpenLoopErmOutcome(i, f);
    if s.bus.regs.status.deviceId == expected {
      InitVariantsAgreeOnExpectedId(s, f, features);
      InitOpenLoopErmOutcome(s, f);
    }
  }
}
