/** An abstract Modbus-TCP device as the driver sees it through its client:
    coils, discrete inputs and input registers, plus a log of the writes the
    driver issued. Connection handling and framing are not modelled. */
module Bus {
  import opened Wrappers
  import opened Decode

  /** A side effect the driver performs, in order. */
  datatype Event =
      /** A single-coil write of `value` at `address`. */
    | Write(address: nat, value: bool)
      /** The blocking wait in the middle of a pulse. */
    | Hold

  /** The device state. `readBack` is a queue of read-back faults: each coil
      read consumes one entry, and an entry `Some(v)` makes that read report `v`
      whatever the coil holds. */
  datatype Device = Device(
    coils: map<nat, bool>,
    discreteInputs: map<nat, bool>,
    inputRegisters: map<nat, Word>,
    readBack: seq<Option<bool>>,
    trace: seq<Event>)

  /** The value a coil holds; a coil never written reads as off. */
  function Coil(b: Device, address: nat): bool {
    if address in b.coils then b.coils[address] else false
  }

  function DiscreteInput(b: Device, address: nat): bool {
    if address in b.discreteInputs then b.discreteInputs[address] else false
  }

  /** The value of an input register; an unset register reads 0. */
  function Register(b: Device, address: nat): Word {
    if address in b.inputRegisters then b.inputRegisters[address] else 0
  }

  /** No pending read-back fault: every coil read reports the stored value. */
  predicate Faithful(b: Device) {
    forall k :: 0 <= k < |b.readBack| ==> b.readBack[k].None?
  }

  /** A device together with the value one read returned. */
  datatype Read<T> = Read(bus: Device, value: T)

  /** The client's `write_coil`: stores the value and logs the write. */
  function WriteCoil(b: Device, address: nat, value: bool): (b': Device)
    ensures Coil(b', address) == value
    ensures forall x :: x != address ==> Coil(b', x) == Coil(b, x)
    ensures b'.trace == b.trace + [Write(address, value)]
    ensures b'.readBack == b.readBack && b'.inputRegisters == b.inputRegisters
    ensures b'.discreteInputs == b.discreteInputs
  {
    b.(coils := b.coils[address := value], trace := b.trace + [Write(address, value)])
  }

  /** The client's `read_coils(...).bits[0]`: reports the stored coil unless the
      next read-back fault overrides it. Nothing but the fault queue changes. */
  function ReadCoil(b: Device, address: nat): (r: Read<bool>)
    ensures r.bus == b.(readBack := r.bus.readBack)
    ensures r.bus.readBack == if |b.readBack| > 0 then b.readBack[1..] else b.readBack
    ensures r.value == if |b.readBack| > 0 && b.readBack[0].Some? then b.readBack[0].value
                       else Coil(b, address)
    ensures Faithful(b) ==> r.value == Coil(b, address) && Faithful(r.bus)
  {
    if |b.readBack| == 0 then Read(b, Coil(b, address))
    else
      var rest := b.(readBack := b.readBack[1..]);
      match b.readBack[0]
      case Some(v) => Read(rest, v)
      case None => Read(rest, Coil(b, address))
  }

  /** The client's `read_input_registers(address, count).registers`. */
  function ReadInputRegisters(b: Device, address: nat, count: nat): seq<Word>
  {
    seq<Word>(count, i requires 0 <= i => Register(b, address + i))
  }

  /** The pulse's blocking wait: only logged. */
  function Sleep(b: Device): Device {
    b.(trace := b.trace + [Hold])
  }
}
