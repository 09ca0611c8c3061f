/**
 * The register interface over I2C: every register access is one transaction
 * to the fixed device address 0x5A. A write sends the register address
 * followed by the payload, staged in a 9-byte buffer; a read is a combined
 * write-read that sends the address byte and fills the caller's buffer.
 */
module Interface {
  import opened Wrappers
  import opened Primitives

  /** The 7-bit I2C address shared by the whole DRV260x family. */
  const I2cAddress: Byte := 0x5A

  /** Capacity of the staging buffer: one address byte and up to 8 data bytes. */
  const FrameCapacity := 9

  /** An error of the I2C implementation; the driver passes it through unchanged. */
  datatype I2cError = I2cError(code: nat)

  datatype DeviceInterfaceError = InterfaceI2c(cause: I2cError)

  /** One I2C transaction as it appears on the wire. */
  datatype I2cOp =
    | I2cWrite(address: Byte, bytes: seq<Byte>)
    | I2cWriteRead(address: Byte, bytes: seq<Byte>, readLen: nat)

  /** Whether transaction number `n` fails, and with which error. */
  function Outcome(failures: map<nat, I2cError>, n: nat): (r: Result<(), I2cError>)
    ensures r.Ok? <==> n !in failures
    ensures r.Err? ==> r.error == failures[n]
  {
    if n in failures then Err(failures[n]) else Ok(())
  }

  /** `.map_err(DeviceInterfaceError::I2c)`: wrap a transport error, keep success. */
  function WrapError(r: Result<(), I2cError>): (w: Result<(), DeviceInterfaceError>)
    ensures w.Ok? <==> r.Ok?
    ensures r.Err? ==> w.error == InterfaceI2c(r.error) && w.error.cause == r.error
  {
    match r
    case Ok(_) => Ok(())
    case Err(e) => Err(InterfaceI2c(e))
  }

  /**
   * The I2C bus as seen from the driver: it records every transaction in
   * `log`; `failures` decides which transactions fail and `response` what a
   * successful read returns, byte by byte.
   */
  class I2cBus {
    var log: seq<I2cOp>
    const failures: map<nat, I2cError>
    const response: (nat, nat) -> Byte

    constructor(failures: map<nat, I2cError>, response: (nat, nat) -> Byte)
      ensures log == [] && this.failures == failures && this.response == response
    {
      log := [];
      this.failures := failures;
      this.response := response;
    }

    method Write(address: Byte, bytes: seq<Byte>) returns (r: Result<(), I2cError>)
      modifies this
      ensures log == old(log) + [I2cWrite(address, bytes)]
      ensures r == Outcome(failures, |old(log)|)
    {
      r := Outcome(failures, |log|);
      log := log + [I2cWrite(address, bytes)];
    }

    method WriteRead(address: Byte, bytes: seq<Byte>, buffer: array<Byte>) returns (r: Result<(), I2cError>)
      modifies this, buffer
      ensures log == old(log) + [I2cWriteRead(address, bytes, buffer.Length)]
      ensures r == Outcome(failures, |old(log)|)
      ensures r.Ok? ==> forall k | 0 <= k < buffer.Length :: buffer[k] == response(|old(log)|, k)
      ensures r.Err? ==> buffer[..] == old(buffer[..])
    {
      var n := |log|;
      r := Outcome(failures, n);
      log := log + [I2cWriteRead(address, bytes, buffer.Length)];
      if r.Ok? {
        forall k | 0 <= k < buffer.Length {
          buffer[k] := response(n, k);
        }
      }
    }
  }

  /**
   * Fill the 9-byte staging buffer with the register address and the payload
   * and return the prefix that goes on the wire.
   */
  method StageFrame(address: Byte, data: seq<Byte>) returns (frame: seq<Byte>)
    requires |data| <= FrameCapacity - 1
    ensures frame == [address] + data
    ensures |frame| == 1 + |data| <= FrameCapacity
  {
    var buf := new Byte[FrameCapacity](_ => 0);
    buf[0] := address;
    var k := 0;
    while k < |data|
      invariant 0 <= k <= |data|
      invariant buf[0] == address
      invariant buf[1..1 + k] == data[..k]
    {
      buf[1 + k] := data[k];
      k := k + 1;
    }
    frame := buf[..1 + |data|];
    assert frame == [buf[0]] + buf[1..1 + |data|];
  }

  /** The register interface the generated device code talks to. */
  class DeviceInterface {
    const i2c: I2cBus

    constructor(i2c: I2cBus)
      ensures this.i2c == i2c
    {
      this.i2c := i2c;
    }

    /** `read_register`: one write-read of the address byte; the size argument is unused. */
    method ReadRegister(address: Byte, sizeBits: nat, data: array<Byte>) returns (r: Result<(), DeviceInterfaceError>)
      modifies i2c, data
      ensures i2c.log == old(i2c.log) + [I2cWriteRead(I2cAddress, [address], data.Length)]
      ensures r == WrapError(Outcome(i2c.failures, |old(i2c.log)|))
      ensures r.Ok? ==> forall k | 0 <= k < data.Length :: data[k] == i2c.response(|old(i2c.log)|, k)
      ensures r.Err? ==> data[..] == old(data[..])
    {
      var res := i2c.WriteRead(I2cAddress, [address], data);
      r := WrapError(res);
    }

    /** `write_register`: one write of the address byte followed by the payload. */
    method WriteRegister(address: Byte, sizeBits: nat, data: seq<Byte>) returns (r: Result<(), DeviceInterfaceError>)
      requires |data| <= FrameCapacity - 1
      modifies i2c
      ensures i2c.log == old(i2c.log) + [I2cWrite(I2cAddress, [address] + data)]
      ensures r == WrapError(Outcome(i2c.failures, |old(i2c.log)|))
    {
      var frame := StageFrame(address, data);
      var res := i2c.Write(I2cAddress, frame);
      r := WrapError(res);
    }

    /** The async `read_register`: the same transaction as the blocking one. */
    method ReadRegisterAsync(address: Byte, sizeBits: nat, data: array<Byte>) returns (r: Result<(), DeviceInterfaceError>)
      modifies i2c, data
      ensures i2c.log == old(i2c.log) + [I2cWriteRead(I2cAddress, [address], data.Length)]
      ensures r == WrapError(Outcome(i2c.failures, |old(i2c.log)|))
      ensures r.Ok? ==> forall k | 0 <= k < data.Length :: data[k] == i2c.response(|old(i2c.log)|, k)
      ensures r.Err? ==> data[..] == old(data[..])
    {
      var res := i2c.WriteRead(I2cAddress, [address], data);
      r := WrapError(res);
    }

    /** The async `write_register`: the same frame as the blocking one. */
    method WriteRegisterAsync(address: Byte, sizeBits: nat, data: seq<Byte>) returns (r: Result<(), DeviceInterfaceError>)
      requires |data| <= FrameCapacity - 1
      modifies i2c
      ensures i2c.log == old(i2c.log) + [I2cWrite(I2cAddress, [address] + data)]
      ensures r == WrapError(Outcome(i2c.failures, |old(i2c.log)|))
    {
      var frame := StageFrame(address, data);
      var res := i2c.Write(I2cAddress, frame);
      r := WrapError(res);
    }
  }
}
