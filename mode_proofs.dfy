/**
 * The operating mode and its cache: the cached mode changes only after the
 * mode register was written successfully, reading the mode asks the device,
 * and the start operations set GO only after their mode write succeeded.
 */
module ModeProofs {
  import opened Wrappers
  import opened Registers
  import opened Bus
  import opened DriverSpec
  import opened Traffic

  /** The read-modify-write of MODE that selects `m`. */
  function ModePlan(d: DeviceRegs, m: OperatingMode): seq<Access>
  {
    [Read(Mode), Write(ModeVal(d.mode.(mode := m)))]
  }

  /**
   * A read-modify-write through the driver: on success the edited register
   * holds the edit and nothing else changed; on failure no register changed.
   */
  lemma ModifyRegOutcome(s: DriverState, f: Faults, e: Edit)
    ensures var r := ModifyReg(s, f, e);
      && FollowsPlan(s, f, [Read(Target(e)), Write(Edited(s.bus.regs, e))], r)
      && r.state.currentMode == s.currentMode
      && (r.result.Ok? ==> r.state.bus.regs == Store(s.bus.regs, Edited(s.bus.regs, e)))
      && (r.result.Err? ==> r.state.bus.regs == s.bus.regs)
  {
    ModifyFollowsPlan(s, f, e);
    ModifyRegState(s, f, e);
  }

  /** The state a read-modify-write through the driver leaves, without its traffic. */
  lemma ModifyRegState(s: DriverState, f: Faults, e: Edit)
    ensures var r := ModifyReg(s, f, e);
      && r.state.currentMode == s.currentMode
      && (r.result.Ok? ==> r.state.bus.regs == Store(s.bus.regs, Edited(s.bus.regs, e)))
      && (r.result.Err? ==> r.state.bus.regs == s.bus.regs)
  {
    ModifyOutcome(s.bus, f, e);
  }

  /**
   * A read-modify-write through the driver succeeds exactly when neither of
   * its two accesses fails, and it adds one access to the trace if the read
   * fails and two otherwise.
   */
  lemma ModifyRegSucceeds(s: DriverState, f: Faults, e: Edit)
    ensures var r := ModifyReg(s, f, e);
      var n := |s.bus.trace|;
      && (r.result.Ok? <==> Clear(f, n, 2))
      && |r.state.bus.trace| == if n in f then n + 1 else n + 2
  {
    var n := |s.bus.trace|;
    ModifyOutcome(s.bus, f, e);
    if !Clear(f, n, 2) {
      assert n in f || n + 1 in f;
    }
  }

  /**
   * `set_mode`: MODE is read and written back with the new mode, standby and
   * reset bits kept; the cache becomes `Some(m)` only if that succeeded, and
   * a failure leaves both the cache and the registers as they were.
   */
  lemma SetModeOutcome(s: DriverState, f: Faults, m: OperatingMode)
    ensures var r := SetMode(s, f, m);
      && FollowsPlan(s, f, ModePlan(s.bus.regs, m), r)
      && (r.result.Ok? ==>
            && r.state.currentMode == Some(m)
            && r.state.bus.regs == s.bus.regs.(mode := s.bus.regs.mode.(mode := m)))
      && (r.result.Err? ==> r.state.currentMode == s.currentMode && r.state.bus.regs == s.bus.regs)
  {
    ModifyRegOutcome(s, f, ModeField(m));
  }

  /** Setting a mode and then reading it back, with both accesses succeeding, returns that mode. */
  lemma SetThenGetMode(s: DriverState, f: Faults, m: OperatingMode)
    ensures var w := SetMode(s, f, m);
      w.result.Ok? && |w.state.bus.trace| !in f ==>
        GetMode(w.state, f).result == Ok(m) && GetMode(w.state, f).state.currentMode == Some(m)
  {
    SetModeOutcome(s, f, m);
  }

  /**
   * `get_mode` reads MODE from the device: its result does not depend on the
   * cache, and it changes neither the cache nor any register.
   */
  lemma GetModeReadsDevice(s: DriverState, f: Faults, cached: Option<OperatingMode>)
    ensures var r := GetMode(s, f);
      && GetMode(s.(currentMode := cached), f).result == r.result
      && FollowsPlan(s, f, [Read(Mode)], r)
      && r.state.currentMode == s.currentMode
      && r.state.bus.regs == s.bus.regs
      && (r.result.Ok? ==> r.result.value == s.bus.regs.mode.mode)
  {
    ReadFollowsPlan(s, f, Mode);
  }

  /** `reset`: the reset bit is set by read-modify-write and the cache is cleared only if that succeeded. */
  lemma ResetOutcome(s: DriverState, f: Faults)
    ensures var r := Reset(s, f);
      && FollowsPlan(s, f, [Read(Mode), Write(ModeVal(s.bus.regs.mode.(devReset := true)))], r)
      && (r.result.Ok? ==>
            && r.state.currentMode == None
            && r.state.bus.regs == s.bus.regs.(mode := s.bus.regs.mode.(devReset := true)))
      && (r.result.Err? ==> r.state.currentMode == s.currentMode && r.state.bus.regs == s.bus.regs)
  {
    ModifyRegOutcome(s, f, DevResetField);
  }

  /** `set_standby`: only the standby bit of MODE changes, and the cache never does. */
  lemma SetStandbyOutcome(s: DriverState, f: Faults, standby: bool)
    ensures var r := SetStandby(s, f, standby);
      && FollowsPlan(s, f, [Read(Mode), Write(ModeVal(s.bus.regs.mode.(standby := standby)))], r)
      && r.state.currentMode == s.currentMode
      && (r.result.Ok? ==> r.state.bus.regs == s.bus.regs.(mode := s.bus.regs.mode.(standby := standby)))
      && (r.result.Err? ==> r.state.bus.regs == s.bus.regs)
  {
    ModifyRegOutcome(s, f, StandbyField(standby));
  }

  /**
   * Select a mode, then GO: the GO write is issued only after the mode write
   * succeeded, and a failed mode selection is returned as it is.
   */
  lemma StartInModeOutcome(s: DriverState, f: Faults, m: OperatingMode)
    ensures var r := StartInMode(s, f, m);
      var sm := SetMode(s, f, m);
      && (sm.result.Err? ==> r == sm)
      && FollowsPlan(s, f, ModePlan(s.bus.regs, m) + [Write(GoVal(true))], r)
      && r.state.currentMode == (if sm.result.Ok? then Some(m) else s.currentMode)
      && (r.result.Ok? ==>
            r.state.bus.regs == s.bus.regs.(mode := s.bus.regs.mode.(mode := m), go := true))
      && (sm.result.Ok? && r.result.Err? ==>
            r.state.bus.regs == s.bus.regs.(mode := s.bus.regs.mode.(mode := m)))
  {
    var sm := SetMode(s, f, m);
    var r := StartInMode(s, f, m);
    SetModeOutcome(s, f, m);
    if sm.result.Ok? {
      assert r.result.Err? ==> r.state.bus.regs == sm.state.bus.regs;
      WriteFollowsPlan(sm.state, f, GoVal(true));
      Compose(s, f, ModePlan(s.bus.regs, m), sm, [Write(GoVal(true))], r, r);
    } else {
      Compose(s, f, ModePlan(s.bus.regs, m), sm, [Write(GoVal(true))], r, r);
    }
  }

  /** `start_auto_calibration`: GO only after AutoCalibration was selected, and then the cache says so. */
  lemma StartAutoCalibrationOutcome(s: DriverState, f: Faults)
    ensures var r := StartAutoCalibration(s, f);
      && (SetMode(s, f, AutoCalibration).result.Err? ==> r == SetMode(s, f, AutoCalibration))
      && FollowsPlan(s, f, ModePlan(s.bus.regs, AutoCalibration) + [Write(GoVal(true))], r)
      && (r.result.Ok? ==> r.state.currentMode == Some(AutoCalibration) && r.state.bus.regs.go)
      && (SetMode(s, f, AutoCalibration).result.Ok? && r.result.Err? ==>
            && r.state.currentMode == Some(AutoCalibration)
            && r.state.bus.regs == s.bus.regs.(mode := s.bus.regs.mode.(mode := AutoCalibration)))
  {
    StartInModeOutcome(s, f, AutoCalibration);
  }

  /** `start_diagnostics`: GO only after Diagnostics was selected, and then the cache says so. */
  lemma StartDiagnosticsOutcome(s: DriverState, f: Faults)
    ensures var r := StartDiagnostics(s, f);
      && (SetMode(s, f, Diagnostics).result.Err? ==> r == SetMode(s, f, Diagnostics))
      && FollowsPlan(s, f, ModePlan(s.bus.regs, Diagnostics) + [Write(GoVal(true))], r)
      && (r.result.Ok? ==> r.state.currentMode == Some(Diagnostics) && r.state.bus.regs.go)
      && (SetMode(s, f, Diagnostics).result.Ok? && r.result.Err? ==>
            && r.state.currentMode == Some(Diagnostics)
            && r.state.bus.regs == s.bus.regs.(mode := s.bus.regs.mode.(mode := Diagnostics)))
  {
    StartInModeOutcome(s, f, Diagnostics);
  }
}
