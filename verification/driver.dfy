/** The ADAM-6000 module driver: signal-level operations over the register
    tables of one model and an abstract Modbus device. Every operation takes
    the device state and returns the new one, so that the writes it issued and
    the read-back faults it consumed are visible to the caller. */
module Driver {
  import opened Wrappers
  import opened Errors
  import opened Registers
  import opened Decode
  import opened Bus

  /** Pulse polarity. */
  datatype Edge = Rising | Falling

  /** One module: the tables of its model and the last name read from it. */
  datatype Module = Module(model: RegisterMap, name: string)

  /** The device after an operation, and what the operation returned. */
  datatype Reply<T> = Reply(bus: Device, result: Result<T, Error>)

  /** Reads back the coil behind digital output `index`. */
  function GetDigitalOutput(d: Module, bus: Device, index: nat): (r: Reply<bool>)
    ensures index >= |d.model.digitalOutputs| ==>
      r == Reply(bus, Failure(OutOfRange(index, |d.model.digitalOutputs|)))
    ensures index < |d.model.digitalOutputs| ==>
      && r.bus == bus.(readBack := if |bus.readBack| > 0 then bus.readBack[1..] else bus.readBack)
      && r.result == Success(if |bus.readBack| > 0 && bus.readBack[0].Some? then bus.readBack[0].value
                             else Coil(bus, d.model.digitalOutputs[index]))
    ensures index < |d.model.digitalOutputs| && Faithful(bus) ==>
      r.result == Success(Coil(bus, d.model.digitalOutputs[index])) && Faithful(r.bus)
  {
    match Lookup(d.model.digitalOutputs, index)
    case Failure(e) => Reply(bus, Failure(e))
    case Success(a) =>
      var rd := ReadCoil(bus, a);
      Reply(rd.bus, Success(rd.value))
  }

  /** Writes `state` to the coil behind digital output `index`; with `verify`,
      reads the coil back and fails if it does not report `state`. The write
      stays in place when the check fails. */
  function SetDigitalOutput(d: Module, bus: Device, index: nat, state: bool, verify: bool := true): (r: Reply<()>)
    ensures index >= |d.model.digitalOutputs| ==>
      r == Reply(bus, Failure(OutOfRange(index, |d.model.digitalOutputs|)))
    ensures index < |d.model.digitalOutputs| ==>
      var a := d.model.digitalOutputs[index];
      && r.bus.trace == bus.trace + [Write(a, state)]
      && Coil(r.bus, a) == state
      && (forall x :: x != a ==> Coil(r.bus, x) == Coil(bus, x))
      && (r.result.Failure? <==> verify && |bus.readBack| > 0 && bus.readBack[0] == Some(!state))
      && (r.result.Failure? ==> r.result.error == VerificationMismatch(a, state, !state))
      && r.bus.readBack == (if verify && |bus.readBack| > 0 then bus.readBack[1..] else bus.readBack)
    ensures Faithful(bus) ==> Faithful(r.bus)
    ensures r.bus.inputRegisters == bus.inputRegisters && r.bus.discreteInputs == bus.discreteInputs
  {
    match Lookup(d.model.digitalOutputs, index)
    case Failure(e) => Reply(bus, Failure(e))
    case Success(a) =>
      var written := WriteCoil(bus, a, state);
      if !verify then Reply(written, Success(()))
      else
        var check := GetDigitalOutput(d, written, index);
        match check.result
        case Failure(e) => Reply(check.bus, Failure(e))
        case Success(observed) =>
          if observed == state then Reply(check.bus, Success(()))
          else Reply(check.bus, Failure(VerificationMismatch(a, state, observed)))
  }

  /** Reads the discrete input behind digital input `index`. */
  function GetDigitalInput(d: Module, bus: Device, index: nat): (r: Result<bool, Error>)
    ensures r.Success? <==> index < |d.model.digitalInputs|
    ensures r.Success? ==> r.value == DiscreteInput(bus, d.model.digitalInputs[index])
    ensures r.Failure? ==> r.error == OutOfRange(index, |d.model.digitalInputs|)
  {
    match Lookup(d.model.digitalInputs, index)
    case Failure(e) => Failure(e)
    case Success(a) => Success(DiscreteInput(bus, a))
  }

  /** One step of a pulse: force the output to a level, or wait. */
  datatype Step = Force(level: bool) | Pause

  /** The level a pulse starts and ends at: low for a rising pulse, high for a
      falling one. */
  function Lead(polarity: Edge): bool {
    polarity == Falling
  }

  /** Force the lead level, force the opposite level, wait, force the lead
      level again. */
  function PulsePlan(polarity: Edge): seq<Step> {
    [Force(Lead(polarity)), Force(!Lead(polarity)), Pause, Force(Lead(polarity))]
  }

  /** The event a completed step leaves in the trace when it acts on coil `a`. */
  function StepEvent(a: nat, step: Step): Event {
    match step
    case Force(level) => Write(a, level)
    case Pause => Hold
  }

  /** The events a plan leaves on coil `a` when every step completes. */
  function StepEvents(a: nat, plan: seq<Step>): seq<Event> {
    seq(|plan|, k requires 0 <= k < |plan| => StepEvent(a, plan[k]))
  }

  /** The level the last Force of a plan sets, or `initial` if it has none. */
  function LastLevel(plan: seq<Step>, initial: bool): bool {
    if |plan| == 0 then initial
    else LastLevel(plan[1..], if plan[0].Force? then plan[0].level else initial)
  }

  /** One step of a plan: a `SetDigitalOutput` call, or the wait. */
  function Perform(d: Module, bus: Device, index: nat, step: Step, verify: bool): (r: Reply<()>)
    ensures index >= |d.model.digitalOutputs| && step.Force? ==>
      r == Reply(bus, Failure(OutOfRange(index, |d.model.digitalOutputs|)))
    ensures forall x :: (index >= |d.model.digitalOutputs| || x != d.model.digitalOutputs[index]) ==>
      Coil(r.bus, x) == Coil(bus, x)
    ensures index < |d.model.digitalOutputs| ==>
      var a := d.model.digitalOutputs[index];
      && r.bus.trace == bus.trace + [StepEvent(a, step)]
      && Coil(r.bus, a) == (if step.Force? then step.level else Coil(bus, a))
      && (r.result.Failure? ==>
            step.Force? && verify && r.result.error == VerificationMismatch(a, step.level, !step.level))
      && ((Faithful(bus) || !verify) ==> r.result.Success?)
    ensures Faithful(bus) ==> Faithful(r.bus)
    ensures r.bus.inputRegisters == bus.inputRegisters && r.bus.discreteInputs == bus.discreteInputs
  {
    match step
    case Pause => Reply(Sleep(bus), Success(()))
    case Force(level) => SetDigitalOutput(d, bus, index, level, verify)
  }

  /** Performs the steps of a plan on output `index` in order and stops at the
      first failing step. */
  function Run(d: Module, bus: Device, index: nat, plan: seq<Step>, verify: bool): (r: Reply<()>)
    ensures index >= |d.model.digitalOutputs| && |plan| > 0 && plan[0].Force? ==>
      r == Reply(bus, Failure(OutOfRange(index, |d.model.digitalOutputs|)))
    ensures forall x :: (index >= |d.model.digitalOutputs| || x != d.model.digitalOutputs[index]) ==>
      Coil(r.bus, x) == Coil(bus, x)
    ensures index < |d.model.digitalOutputs| && (Faithful(bus) || !verify) ==> r.result.Success?
    ensures r.bus.inputRegisters == bus.inputRegisters && r.bus.discreteInputs == bus.discreteInputs
    decreases |plan|
  {
    if |plan| == 0 then Reply(bus, Success(()))
    else
      var s := Perform(d, bus, index, plan[0], verify);
      if s.result.Failure? then s else Run(d, s.bus, index, plan[1..], verify)
  }

  /** Running a plan on a valid output grows the trace by a prefix of the
      plan's events: steps run in order, and none is skipped or repeated. */
  lemma {:induction false} RunPrefix(d: Module, bus: Device, index: nat, plan: seq<Step>, verify: bool)
    requires index < |d.model.digitalOutputs|
    ensures var r := Run(d, bus, index, plan, verify);
      && |bus.trace| <= |r.bus.trace| <= |bus.trace| + |plan|
      && r.bus.trace == bus.trace + StepEvents(d.model.digitalOutputs[index], plan)[..|r.bus.trace| - |bus.trace|]
    decreases |plan|
  {
    if |plan| > 0 {
      var r := Run(d, bus, index, plan, verify);
      var a := d.model.digitalOutputs[index];
      var events := StepEvents(a, plan);
      var s := Perform(d, bus, index, plan[0], verify);
      assert s.bus.trace == bus.trace + [events[0]];
      if s.result.Success? {
        RunPrefix(d, s.bus, index, plan[1..], verify);
        var k := |r.bus.trace| - |s.bus.trace|;
        StepEventsPrefix(a, plan, k);
      } else {
        assert events[..1] == [events[0]];
      }
    }
  }

  /** The first k + 1 events of a plan are its first step's event followed by
      the first k events of the rest. */
  lemma StepEventsPrefix(a: nat, plan: seq<Step>, k: nat)
    requires k < |plan|
    ensures StepEvents(a, plan)[..k + 1] == [StepEvent(a, plan[0])] + StepEvents(a, plan[1..])[..k]
  {
  }

  /** A successful run performed every step, and the coil holds the plan's
      last forced level. */
  lemma {:induction false} RunSuccess(d: Module, bus: Device, index: nat, plan: seq<Step>, verify: bool)
    requires index < |d.model.digitalOutputs|
    requires Run(d, bus, index, plan, verify).result.Success?
    ensures var r := Run(d, bus, index, plan, verify);
      var a := d.model.digitalOutputs[index];
      && r.bus.trace == bus.trace + StepEvents(a, plan)
      && Coil(r.bus, a) == LastLevel(plan, Coil(bus, a))
    decreases |plan|
  {
    if |plan| > 0 {
      var a := d.model.digitalOutputs[index];
      var s := Perform(d, bus, index, plan[0], verify);
      RunSuccess(d, s.bus, index, plan[1..], verify);
      assert StepEvents(a, plan) == [StepEvent(a, plan[0])] + StepEvents(a, plan[1..]);
    }
  }

  /** A failed run stopped at a verified write whose read-back disagreed: that
      write is the last event, and the coil keeps the value it wrote. */
  lemma {:induction false} RunFailure(d: Module, bus: Device, index: nat, plan: seq<Step>, verify: bool)
    requires index < |d.model.digitalOutputs|
    requires Run(d, bus, index, plan, verify).result.Failure?
    ensures var r := Run(d, bus, index, plan, verify);
      var a := d.model.digitalOutputs[index];
      && verify
      && r.result.error.VerificationMismatch?
      && r.result.error.address == a
      && r.result.error.observed == !r.result.error.expected
      && |r.bus.trace| > |bus.trace|
      && r.bus.trace[|r.bus.trace| - 1] == Write(a, r.result.error.expected)
      && Coil(r.bus, a) == r.result.error.expected
    decreases |plan|
  {
    var s := Perform(d, bus, index, plan[0], verify);
    if s.result.Success? {
      RunFailure(d, s.bus, index, plan[1..], verify);
    }
  }

  /** The driver's software pulse: set, set, sleep, set, aborting at the first
      failed verification. */
  function PulseDigitalOutput(d: Module, bus: Device, index: nat, polarity: Edge := Rising, verify: bool := true): (r: Reply<()>)
    ensures index >= |d.model.digitalOutputs| ==>
      r == Reply(bus, Failure(OutOfRange(index, |d.model.digitalOutputs|)))
    ensures forall x :: (index >= |d.model.digitalOutputs| || x != d.model.digitalOutputs[index]) ==>
      Coil(r.bus, x) == Coil(bus, x)
    ensures index < |d.model.digitalOutputs| && (Faithful(bus) || !verify) ==> r.result.Success?
    ensures r.bus.inputRegisters == bus.inputRegisters && r.bus.discreteInputs == bus.discreteInputs
  {
    Run(d, bus, index, PulsePlan(polarity), verify)
  }

  /** A write followed by a read of the same output returns what was written,
      when the device reads back faithfully; the write itself succeeds. */
  lemma SetThenGet(d: Module, bus: Device, index: nat, state: bool, verify: bool)
    requires index < |d.model.digitalOutputs| && Faithful(bus)
    ensures var s := SetDigitalOutput(d, bus, index, state, verify);
      && s.result.Success?
      && GetDigitalOutput(d, s.bus, index).result == Success(state)
  {
  }

  /** The generic base model has empty tables, so every indexed operation
      fails with OutOfRange and leaves the device untouched. */
  lemma GenericHasNoSignals(name: string, bus: Device, index: nat, state: bool, polarity: Edge, verify: bool)
    ensures var d := Module(Generic, name);
      && SetDigitalOutput(d, bus, index, state, verify) == Reply(bus, Failure(OutOfRange(index, 0)))
      && GetDigitalOutput(d, bus, index) == Reply(bus, Failure(OutOfRange(index, 0)))
      && PulseDigitalOutput(d, bus, index, polarity, verify) == Reply(bus, Failure(OutOfRange(index, 0)))
      && GetDigitalInput(d, bus, index) == Failure(OutOfRange(index, 0))
      && GetCounter(d, bus, index) == Failure(OutOfRange(index, 0))
  {
  }

  /** The pulse is the driver's three `set_digital_output` calls with the
      sleep between the second and the third, each call made only if the
      previous one succeeded. */
  lemma PulseMatchesSetCalls(d: Module, bus: Device, index: nat, polarity: Edge, verify: bool)
    ensures var lead := Lead(polarity);
      var s1 := SetDigitalOutput(d, bus, index, lead, verify);
      var s2 := SetDigitalOutput(d, s1.bus, index, !lead, verify);
      var s3 := SetDigitalOutput(d, Sleep(s2.bus), index, lead, verify);
      PulseDigitalOutput(d, bus, index, polarity, verify)
        == if s1.result.Failure? then s1 else if s2.result.Failure? then s2 else s3
  {
    var lead := Lead(polarity);
    var tail := [Pause, Force(lead)];
    assert PulsePlan(polarity) == [Force(lead)] + ([Force(!lead)] + tail);
    RunForce(d, bus, index, lead, [Force(!lead)] + tail, verify);
    var s1 := SetDigitalOutput(d, bus, index, lead, verify);
    RunForce(d, s1.bus, index, !lead, tail, verify);
    var s2 := SetDigitalOutput(d, s1.bus, index, !lead, verify);
    assert tail == [Pause] + ([Force(lead)] + []);
    RunPause(d, s2.bus, index, [Force(lead)] + [], verify);
    RunForce(d, Sleep(s2.bus), index, lead, [], verify);
  }

  /** A plan that starts with a Pause logs the wait and runs the rest. */
  lemma RunPause(d: Module, bus: Device, index: nat, rest: seq<Step>, verify: bool)
    ensures Run(d, bus, index, [Pause] + rest, verify) == Run(d, Sleep(bus), index, rest, verify)
  {
    assert ([Pause] + rest)[1..] == rest;
  }

  /** A plan that starts with a Force runs `SetDigitalOutput` first and
      continues with the rest only if it succeeded. */
  lemma RunForce(d: Module, bus: Device, index: nat, level: bool, rest: seq<Step>, verify: bool)
    ensures var s := SetDigitalOutput(d, bus, index, level, verify);
      Run(d, bus, index, [Force(level)] + rest, verify)
        == if s.result.Failure? then s else Run(d, s.bus, index, rest, verify)
  {
    assert ([Force(level)] + rest)[1..] == rest;
  }

  /** With a faithful read-back, or without verification, a pulse performs all
      four steps. A rising pulse writes low, high, waits, writes low and leaves
      the output low; a falling pulse writes high, low, waits, writes high and
      leaves it high. No other coil changes. */
  lemma PulseCompletes(d: Module, bus: Device, index: nat, polarity: Edge, verify: bool)
    requires index < |d.model.digitalOutputs|
    requires Faithful(bus) || !verify
    ensures var r := PulseDigitalOutput(d, bus, index, polarity, verify);
      var a := d.model.digitalOutputs[index];
      && r.result.Success?
      && (polarity == Rising ==>
            r.bus.trace == bus.trace + [Write(a, false), Write(a, true), Hold, Write(a, false)]
            && Coil(r.bus, a) == false)
      && (polarity == Falling ==>
            r.bus.trace == bus.trace + [Write(a, true), Write(a, false), Hold, Write(a, true)]
            && Coil(r.bus, a) == true)
      && (forall x :: x != a ==> Coil(r.bus, x) == Coil(bus, x))
  {
    var a := d.model.digitalOutputs[index];
    var plan := PulsePlan(polarity);
    RunSuccess(d, bus, index, plan, verify);
    var lead := Lead(polarity);
    assert plan[1..] == [Force(!lead), Pause, Force(lead)];
    assert plan[1..][1..] == [Pause, Force(lead)];
    assert plan[1..][1..][1..] == [Force(lead)];
    assert LastLevel(plan, Coil(bus, a)) == LastLevel(plan[1..], lead)
        == LastLevel(plan[1..][1..], !lead) == LastLevel(plan[1..][1..][1..], !lead) == lead;
    assert StepEvents(a, plan) == [Write(a, Lead(polarity)), Write(a, !Lead(polarity)), Hold, Write(a, Lead(polarity))];
  }

  /** A pulse that fails stops at the failing write: the trace gained the
      first one, two or all four of the pulse's events, ending in the write
      whose read-back disagreed. Nothing after it was performed, nothing
      before it was undone, and the output keeps the failed write's level. */
  lemma PulseAborts(d: Module, bus: Device, index: nat, polarity: Edge, verify: bool)
    requires index < |d.model.digitalOutputs|
    requires PulseDigitalOutput(d, bus, index, polarity, verify).result.Failure?
    ensures var r := PulseDigitalOutput(d, bus, index, polarity, verify);
      var a := d.model.digitalOutputs[index];
      var k := |r.bus.trace| - |bus.trace|;
      && verify
      && (k == 1 || k == 2 || k == 4)
      && r.bus.trace == bus.trace + StepEvents(a, PulsePlan(polarity))[..k]
      && r.result.error == VerificationMismatch(a, PulsePlan(polarity)[k - 1].level, !PulsePlan(polarity)[k - 1].level)
      && Coil(r.bus, a) == PulsePlan(polarity)[k - 1].level
  {
    var plan := PulsePlan(polarity);
    var r := PulseDigitalOutput(d, bus, index, polarity, verify);
    var a := d.model.digitalOutputs[index];
    RunPrefix(d, bus, index, plan, verify);
    RunFailure(d, bus, index, plan, verify);
    var events := StepEvents(a, plan);
    var k := |r.bus.trace| - |bus.trace|;
    assert 0 < k <= 4;
    assert r.bus.trace[|r.bus.trace| - 1] == events[k - 1];
    assert events[2] == Hold;
    assert k != 3;
  }

  /** The position, among `levels`, of the first verified write whose
      read-back fault contradicts it, or `|levels|` if none does. The i-th
      verified write consumes the i-th entry of the fault queue. */
  function FirstMismatch(readBack: seq<Option<bool>>, levels: seq<bool>): (k: nat)
    ensures k <= |levels|
    ensures forall i :: 0 <= i < k && i < |readBack| ==> readBack[i] != Some(!levels[i])
    ensures k < |levels| ==> k < |readBack| && readBack[k] == Some(!levels[k])
  {
    if |levels| == 0 then 0
    else if |readBack| > 0 && readBack[0] == Some(!levels[0]) then 0
    else 1 + FirstMismatch(if |readBack| > 0 then readBack[1..] else readBack, levels[1..])
  }

  /** The levels the pulse's three verified writes set, in order. */
  function PulseLevels(polarity: Edge): seq<bool> {
    [Lead(polarity), !Lead(polarity), Lead(polarity)]
  }

  /** With verification on, a pulse fails exactly when one of its three
      read-backs is faulted to the opposite of the level just written, and it
      stops at the first such read-back: writes up to and including that one
      are in the trace, later ones are not. */
  lemma PulseStopsAtFirstMismatch(d: Module, bus: Device, index: nat, polarity: Edge)
    requires index < |d.model.digitalOutputs|
    ensures var r := PulseDigitalOutput(d, bus, index, polarity, true);
      var m := FirstMismatch(bus.readBack, PulseLevels(polarity));
      var k := |r.bus.trace| - |bus.trace|;
      && (r.result.Failure? <==> m < 3)
      && |bus.trace| <= |r.bus.trace|
      && k == (if m == 0 then 1 else if m == 1 then 2 else 4)
  {
    var lead := Lead(polarity);
    var rb := bus.readBack;
    var rb1 := if |rb| > 0 then rb[1..] else rb;
    var rb2 := if |rb1| > 0 then rb1[1..] else rb1;
    PulseMatchesSetCalls(d, bus, index, polarity, true);
    var s1 := SetDigitalOutput(d, bus, index, lead, true);
    var s2 := SetDigitalOutput(d, s1.bus, index, !lead, true);
    var s3 := SetDigitalOutput(d, Sleep(s2.bus), index, lead, true);
    assert s1.result.Failure? <==> Faulted(rb, lead);
    assert s1.bus.readBack == rb1;
    assert s2.result.Failure? <==> Faulted(rb1, !lead);
    assert Sleep(s2.bus).readBack == rb2;
    assert s3.result.Failure? <==> Faulted(rb2, lead);
    PulseMismatchPosition(rb, lead);
  }

  /** The next coil read is faulted to the opposite of `level`. */
  predicate Faulted(readBack: seq<Option<bool>>, level: bool) {
    |readBack| > 0 && readBack[0] == Some(!level)
  }

  /** Where the first contradicting read-back of a pulse falls, entry by entry
      of the fault queue. */
  lemma PulseMismatchPosition(rb: seq<Option<bool>>, lead: bool)
    ensures var rb1 := if |rb| > 0 then rb[1..] else rb;
      var rb2 := if |rb1| > 0 then rb1[1..] else rb1;
      FirstMismatch(rb, [lead, !lead, lead]) ==
        if Faulted(rb, lead) then 0
        else if Faulted(rb1, !lead) then 1
        else if Faulted(rb2, lead) then 2
        else 3
  {
    var levels := [lead, !lead, lead];
    assert levels[1..] == [!lead, lead] && levels[1..][1..] == [lead] && levels[1..][1..][1..] == [];
  }

  /** Reads the two module-name registers and caches the name they spell. */
  function GetModuleName(d: Module, bus: Device): (d': Module)
    ensures d'.model == d.model
    ensures var low := Register(bus, d.model.moduleName);
            var high := Register(bus, d.model.moduleName + 1);
            && d'.name == ModuleName(low, high)
            && (d'.name == "" <==> low == 0 && high == 0)
  {
    var regs := ReadInputRegisters(bus, d.model.moduleName, 2);
    var low, high := regs[0], regs[1];
    assert low == Register(bus, d.model.moduleName) && high == Register(bus, d.model.moduleName + 1);
    d.(name := ModuleName(low, high))
  }

  /** Reads counter `index` from its two registers, low register first. */
  function GetCounter(d: Module, bus: Device, index: nat): (r: Result<nat, Error>)
    ensures r.Success? <==> index < |d.model.counterRegisters|
    ensures r.Failure? ==> r.error == OutOfRange(index, |d.model.counterRegisters|)
    ensures r.Success? ==>
      var a := d.model.counterRegisters[index];
      && r.value < WordBase * WordBase
      && r.value % WordBase == Register(bus, a)
      && r.value / WordBase == Register(bus, a + 1)
  {
    match Lookup(d.model.counterRegisters, index)
    case Failure(e) => Failure(e)
    case Success(a) =>
      var regs := ReadInputRegisters(bus, a, 2);
      var low, high := regs[0], regs[1];
      Success(CounterValue(low, high))
  }
}
