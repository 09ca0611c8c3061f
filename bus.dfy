/**
 * The generated device object at register level: `read` decodes one
 * register, `write` encodes and stores one, and `modify` is a read followed
 * by a write of the edited value. Every attempted access is recorded in the
 * trace, failed ones included; a failed access changes no register.
 */
module Bus {
  import opened Wrappers
  import opened Registers
  import opened Interface

  /** One register access issued by the driver. */
  datatype Access = Read(reg: Register) | Write(value: RegValue)

  datatype BusState = BusState(trace: seq<Access>, regs: DeviceRegs)

  /** Which accesses fail: the access at trace position `n` fails with `f[n]` when `n in f`. */
  type Faults = map<nat, I2cError>

  /** No access at trace positions `from` .. `from + count - 1` fails. */
  predicate Clear(f: Faults, from: nat, count: nat)
  {
    forall n | from <= n < from + count :: n !in f
  }

  /** The new bus state and the outcome of a register-level operation. */
  datatype BusRun<T> = BusRun(bus: BusState, result: Result<T, DeviceInterfaceError>)

  function ReadStep(b: BusState, f: Faults, r: Register): BusRun<RegValue>
  {
    var b' := b.(trace := b.trace + [Read(r)]);
    if |b.trace| in f then BusRun(b', Err(InterfaceI2c(f[|b.trace|])))
    else BusRun(b', Ok(Load(b.regs, r)))
  }

  function WriteStep(b: BusState, f: Faults, v: RegValue): BusRun<()>
  {
    var b' := b.(trace := b.trace + [Write(v)]);
    if |b.trace| in f then BusRun(b', Err(InterfaceI2c(f[|b.trace|])))
    else BusRun(b'.(regs := Store(b.regs, v)), Ok(()))
  }

  function ModifyStep(b: BusState, f: Faults, e: Edit): BusRun<()>
  {
    var rd := ReadStep(b, f, Target(e));
    if rd.result.Err? then BusRun(rd.bus, Err(rd.result.error))
    else WriteStep(rd.bus, f, Apply(e, rd.result.value))
  }

  /**
   * Read-modify-write: on success the register holds the edit applied to its
   * previous value, every other register is unchanged, and the trace gained
   * the read and the write-back. If the read fails nothing is written; if the
   * write fails no register changes.
   */
  lemma ModifyOutcome(b: BusState, f: Faults, e: Edit)
    ensures var run := ModifyStep(b, f, e);
      var n := |b.trace|;
      var edited := Apply(e, Load(b.regs, Target(e)));
      && (n in f ==> run == BusRun(b.(trace := b.trace + [Read(Target(e))]), Err(InterfaceI2c(f[n]))))
      && (n !in f ==> run.bus.trace == b.trace + [Read(Target(e)), Write(edited)])
      && (n !in f && n + 1 in f ==> run.bus.regs == b.regs && run.result == Err(InterfaceI2c(f[n + 1])))
      && (Clear(f, n, 2) ==>
            && run.result == Ok(())
            && run.bus.regs == Store(b.regs, edited)
            && Load(run.bus.regs, Target(e)) == edited
            && (forall r | r != Target(e) :: Load(run.bus.regs, r) == Load(b.regs, r)))
  {
    var edited := Apply(e, Load(b.regs, Target(e)));
    assert !edited.StatusVal?;
    forall r {
      LoadStore(b.regs, edited, r);
    }
  }

  /** The device object: its register file, the trace of accesses, and the fault oracle. */
  class Device {
    var trace: seq<Access>
    var regs: DeviceRegs
    const faults: Faults

    constructor(regs: DeviceRegs, faults: Faults)
      ensures trace == [] && this.regs == regs && this.faults == faults
    {
      trace := [];
      this.regs := regs;
      this.faults := faults;
    }

    function State(): BusState
      reads this
    {
      BusState(trace, regs)
    }

    method Read(r: Register) returns (res: Result<RegValue, DeviceInterfaceError>)
      modifies this
      ensures BusRun(State(), res) == ReadStep(old(State()), faults, r)
    {
      var n := |trace|;
      trace := trace + [Access.Read(r)];
      if n in faults {
        res := Err(InterfaceI2c(faults[n]));
      } else {
        res := Ok(Load(regs, r));
      }
    }

    method Write(v: RegValue) returns (res: Result<(), DeviceInterfaceError>)
      modifies this
      ensures BusRun(State(), res) == WriteStep(old(State()), faults, v)
    {
      var n := |trace|;
      trace := trace + [Access.Write(v)];
      if n in faults {
        res := Err(InterfaceI2c(faults[n]));
      } else {
        regs := Store(regs, v);
        res := Ok(());
      }
    }

    method Modify(e: Edit) returns (res: Result<(), DeviceInterfaceError>)
      modifies this
      ensures BusRun(State(), res) == ModifyStep(old(State()), faults, e)
    {
      var rd := Read(Target(e));
      if rd.Err? {
        return Err(rd.error);
      }
      res := Write(Apply(e, rd.value));
    }
  }
}
