# ADAM-6000 Modbus-TCP driver — Dafny model

This project models the driver class for Advantech ADAM-6000 digital I/O
modules (`adam6xxx/__init__.py`). The driver maps logical signal numbers onto
per-model Modbus coil and register addresses. On top of a Modbus-TCP client it
offers digital I/O, a write-then-read-back check, a software pulse, counter
decoding and module identification.

The model is functional. Each module model is an immutable `RegisterMap`
value: the generic base class with empty tables, the ADAM-6052 and the
ADAM-6060. The Modbus client is replaced by an abstract `Device` value (module `Bus`),
which every operation takes and returns. A `Device` holds:

- the coils, discrete inputs and input registers;
- a queue of read-back faults, where an entry `Some(v)` makes the next coil
  read report `v` whatever the coil holds;
- a trace of the coil writes and pulse waits the driver issued, in order.

Modules:

- `Wrappers`: `Option` and `Result`.
- `Errors`: the failures an operation reports. `OutOfRange` stands for
  Python's `IndexError` on a table. `VerificationMismatch` stands for the
  failed `assert` after a verified write.
- `Registers`: the address tables, index lookup, and layout lemmas (stride,
  monotonicity, and disjointness of two-register blocks).
- `Hex`: lower-case hexadecimal numerals as `hex(n)[2:]` prints them, with
  their inverse.
- `Decode`: 16-bit words, the 32-bit counter composition and the module-name
  string.
- `Bus`: the abstract device and the client primitives the driver uses.
- `Driver`: the driver operations and the pulse state machine.

A pulse is modelled as a four-step plan run by a small interpreter (`Run`):
force the lead level, force the opposite level, wait, force the lead level
again. The interpreter stops at the first failing step. `PulseMatchesSetCalls`
proves this is the source's literal chain of three `set_digital_output` calls
around the sleep.

The code never checks the pulse duration, and the model has no duration check
either. Where the model adds information, it is in the error value: Python's
`IndexError` names neither the table nor the range, while `OutOfRange` carries
the index and the table size, which the code also has at hand.

`SetDigitalOutput` and `PulseDigitalOutput` keep the source's defaults:
`verify` is true and the polarity is `Rising` unless the caller says otherwise.

## Model

| member | source | states |
|---|---|---|
| Registers.Lookup | adam6xxx/__init__.py:75-76 | translating an index succeeds exactly when it is below the table length, and gives that table entry; otherwise the error names the index and the size, and nothing is clamped or wrapped |
| Registers.StrideIsProgression | adam6xxx/__init__.py:196-200 | a table whose consecutive entries differ by a fixed stride is the arithmetic progression from its first entry |
| Registers.PackedBlocksDisjoint | adam6xxx/__init__.py:196-200 | stride-2 tables laid out one after the other never place two two-register blocks on a common register |
| Registers.WellFormedLayout | adam6xxx/__init__.py:194-214 | in a model with consecutive coil and input tables and packed register tables, no table repeats an address and no two register blocks overlap |
| Registers.Adam6052Layout | adam6xxx/__init__.py:194-200 | the ADAM-6052 has 8 outputs, 8 inputs and 8 entries in each of the five register tables; those tables are packed stride-2 runs whose blocks are pairwise disjoint |
| Registers.Adam6060Layout | adam6xxx/__init__.py:208-214 | the ADAM-6060 has 6 outputs, 6 inputs and 6 entries in each register table, with the same stride-2 and disjointness guarantees |
| Registers.ModelAddresses | adam6xxx/__init__.py:194-210 | on both models output i is coil 16+i, input i is discrete input i, and counter i starts at register 2i |
| Hex.ToHex | adam6xxx/__init__.py:150 | the printed numeral uses only lower-case hex digits, has no prefix and no leading zero, and is "0" only for zero |
| Hex.FromToHex | adam6xxx/__init__.py:150 | reading a printed numeral back gives the original number |
| Hex.ToFromHex | adam6xxx/__init__.py:150 | every canonical numeral is the printing of its own value, so printing is a bijection onto canonical numerals |
| Hex.ToHexInjective | adam6xxx/__init__.py:150 | distinct numbers print differently |
| Decode.CounterValue | adam6xxx/__init__.py:170 | the count is below 2^32, its quotient by 65536 is the high register and its remainder is the low register |
| Decode.SplitCounter | adam6xxx/__init__.py:170 | every count below 2^32 is produced by exactly one register pair, which this returns |
| Decode.CounterRoundTrip | adam6xxx/__init__.py:170 | composing then splitting returns the register pair, and a count equals a pair's composition iff splitting it gives that pair |
| Decode.CounterExample | adam6xxx/__init__.py:170 | low 5 and high 2 give 131077 |
| Decode.Segment | adam6xxx/__init__.py:149-152 | a zero register contributes nothing; any other contributes a canonical hex numeral (no leading zero) of at most four digits that reads back as the register |
| Decode.ModuleName | adam6xxx/__init__.py:146-153 | the name contains only hex digits, is at most 8 characters long, and is empty iff both registers are zero |
| Decode.ModuleNameSegments | adam6xxx/__init__.py:148-153 | the low register's text comes first: cutting the name after it reads back the low and the high register, each segment canonical when non-zero; the low segment is empty iff low is zero and the high segment is empty iff high is zero |
| Decode.ModuleNameExamples | adam6xxx/__init__.py:146-153 | (0x41, 0x42) gives "4142" and (0, 0x5A) gives "5a" |
| Decode.ModuleNameAmbiguous | adam6xxx/__init__.py:149-152 | (0x4142, 0), (0x41, 0x42) and (0, 0x4142) all give the same name |
| Bus.WriteCoil | adam6xxx/__init__.py:75-76 | a coil write sets that coil, leaves every other coil and the registers alone, and appends exactly that write to the trace |
| Bus.ReadCoil | adam6xxx/__init__.py:94 | a coil read changes nothing but the fault queue, whose head entry (if any) it uses up; a head entry `Some(v)` makes it report `v`, and otherwise it reports the stored coil |
| Driver.GetDigitalOutput | adam6xxx/__init__.py:81-94 | an out-of-range index fails and touches nothing; otherwise the read succeeds, uses up one fault-queue entry and changes nothing else, and returns the fault's value when the head entry is `Some`, the coil's value otherwise |
| Driver.SetDigitalOutput | adam6xxx/__init__.py:63-79 | an out-of-range index fails before any write; otherwise exactly one write of `state` to the output's coil is logged and no other coil, discrete input or input register changes; the call fails iff `verify` is set and the read-back is faulted to the opposite value, and the write then stays in place |
| Driver.GetDigitalInput | adam6xxx/__init__.py:96-109 | an in-range index reads the discrete input behind it; any other index fails with OutOfRange |
| Driver.Perform | adam6xxx/__init__.py:125-134 | one pulse step logs its event, changes only the pulsed coil (no other coil, discrete input or input register), and can fail only as a verified Force whose read-back disagreed |
| Driver.Run | adam6xxx/__init__.py:125-134 | a plan starting with a Force on an out-of-range output fails with nothing done; no coil other than the pulsed one changes, nor any discrete input or input register; with faithful read-back or no verification every plan succeeds |
| Driver.RunPrefix | adam6xxx/__init__.py:125-134 | the steps run in plan order: the trace gains a prefix of the plan's events, never more |
| Driver.RunSuccess | adam6xxx/__init__.py:125-134 | a successful run logged every step, and the coil holds the plan's last forced level |
| Driver.RunFailure | adam6xxx/__init__.py:77-79 | a failed run was verifying; its last event is the write whose read-back disagreed, and the coil keeps that write's level |
| Driver.PulseDigitalOutput | adam6xxx/__init__.py:111-134 | an out-of-range output fails with nothing written; the pulse never changes another coil, a discrete input or an input register; with faithful read-back or no verification it succeeds |
| Driver.PulseMatchesSetCalls | adam6xxx/__init__.py:125-134 | the pulse equals set(lead), set(not lead), sleep, set(lead), each call made only if the previous one succeeded |
| Driver.PulseCompletes | adam6xxx/__init__.py:125-134 | with faithful read-back a rising pulse logs writes false, true, a wait, false and ends low; a falling pulse logs true, false, a wait, true and ends high; other coils are unchanged |
| Driver.PulseAborts | adam6xxx/__init__.py:124-134 | a failed pulse logged the first 1, 2 or 4 of its events, ending in the failed write; later steps were skipped, earlier ones were not undone, and the coil keeps the failed level |
| Driver.FirstMismatch | adam6xxx/__init__.py:77-79 | finds the first verified write whose read-back fault contradicts it: no earlier write is contradicted, and the one found is |
| Driver.PulseStopsAtFirstMismatch | adam6xxx/__init__.py:124-134 | a verified pulse fails iff one of its three read-backs is faulted to the opposite level, and it stops after the first such write (1, 2 or 4 events logged) |
| Driver.SetThenGet | adam6xxx/__init__.py:75-94 | with faithful read-back, writing `state` succeeds, and reading the output afterwards returns `state` |
| Driver.GenericHasNoSignals | adam6xxx/__init__.py:22-30 | the base class's tables are empty, so every indexed operation fails with OutOfRange and leaves the device untouched |
| Driver.GetModuleName | adam6xxx/__init__.py:136-153 | the cached name is the name spelled by the two registers at the module-name address, and it is empty iff both are zero; the register map is unchanged |
| Driver.GetCounter | adam6xxx/__init__.py:155-170 | an in-range index yields a count below 2^32 whose remainder by 65536 is the base register and whose quotient is the next register; any other index fails with OutOfRange |

## Left out

- The constructor, `connect()` and the `connected` flag (adam6xxx/__init__.py:37-61): they create and open the pymodbus TCP client, which is foreign network I/O. `connect()` also calls `get_module_name`, which `GetModuleName` models.
- Connection-level failures of every client call: the abstract device always answers.
- The hold duration of the pulse: `time.sleep(duration)` takes a float and blocks on the wall clock. It is modelled as a `Hold` event with no duration, so the default `duration=0.1` has no counterpart. A negative duration makes `time.sleep` raise after the second write; that path is not modelled.
- `get_frequency` (adam6xxx/__init__.py:172-187): it divides the register list itself by 10.0, which is a type error at run time, and it works on floating point.
- GetDigitalInput: returns the input bit, while the source returns pymodbus's response object itself and not its `.bits[0]`.
- `analog_outputs`, `output_diagnostics`, `gcl_flags`, `gcl_counter_registers` and `clear_gcl_counters`: declared, but no operation uses them.
- Negative indices: Python wraps them to the end of the list. The model takes natural-number indices only.
- The pulse's `assert polarity in Edges` (adam6xxx/__init__.py:124): the `Edge` type has exactly the two values, so it cannot fail.
- Running Python with `-O` strips `assert`, which would make verification never fail. The model keeps the check.
- A coil never written reads as off, and an unset input register reads 0. These are model defaults; the source knows nothing about the initial device state.
