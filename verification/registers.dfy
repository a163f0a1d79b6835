/** Per-model Modbus address tables of the ADAM-6000 modules and the
    translation of a logical signal index into a physical address. */
module Registers {
  import opened Wrappers
  import opened Errors

  /** The address tables of one module model. Coil and discrete-input tables
      hold single-bit addresses; the five register tables hold the base
      address of a block of two 16-bit registers (low, then high). */
  datatype RegisterMap = RegisterMap(
    digitalOutputs: seq<nat>,
    digitalInputs: seq<nat>,
    counterRegisters: seq<nat>,
    pulseLowWidths: seq<nat>,
    pulseHighWidths: seq<nat>,
    absolutePulseCount: seq<nat>,
    incrementalPulseCount: seq<nat>,
    moduleName: nat)

  /** Base address of the two module-name registers, common to every model. */
  const ModuleNameRegister: nat := 210

  /** The generic ADAM-6000 base class: every table is empty. */
  const Generic: RegisterMap :=
    RegisterMap([], [], [], [], [], [], [], ModuleNameRegister)

  /** ADAM-6052: 8 digital inputs, 8 digital outputs. */
  const Adam6052: RegisterMap := RegisterMap(
    [16, 17, 18, 19, 20, 21, 22, 23],
    [0, 1, 2, 3, 4, 5, 6, 7],
    [0, 2, 4, 6, 8, 10, 12, 14],
    [16, 18, 20, 22, 24, 26, 28, 30],
    [32, 34, 36, 38, 40, 42, 44, 46],
    [48, 50, 52, 54, 56, 58, 60, 62],
    [64, 66, 68, 70, 72, 74, 76, 78],
    ModuleNameRegister)

  /** ADAM-6060: 6 digital inputs, 6 relay outputs. */
  const Adam6060: RegisterMap := RegisterMap(
    [16, 17, 18, 19, 20, 21],
    [0, 1, 2, 3, 4, 5],
    [0, 2, 4, 6, 8, 10],
    [12, 14, 16, 18, 20, 22],
    [24, 26, 28, 30, 32, 34],
    [36, 38, 40, 42, 44, 46],
    [48, 50, 52, 54, 56, 58],
    ModuleNameRegister)

  /** Translates a logical index through an address table; an index past the
      end is an error naming the index and the table size, never a clamp. */
  function Lookup(table: seq<nat>, index: nat): (r: Result<nat, Error>)
    ensures r.Success? <==> index < |table|
    ensures r.Success? ==> r.value in table && r.value == table[index]
    ensures r.Failure? ==> r.error == OutOfRange(index, |table|)
  {
    if index < |table| then Success(table[index]) else Failure(OutOfRange(index, |table|))
  }

  /** The five two-register tables, in address order. */
  function RegisterBlocks(m: RegisterMap): seq<seq<nat>> {
    [m.counterRegisters, m.pulseLowWidths, m.pulseHighWidths,
     m.absolutePulseCount, m.incrementalPulseCount]
  }

  /** Consecutive entries differ by `stride`. */
  predicate Stride(t: seq<nat>, stride: nat) {
    forall i :: 0 < i < |t| ==> t[i] == t[i - 1] + stride
  }

  /** Entry `i` is `base + stride * i`. */
  predicate Progression(t: seq<nat>, base: nat, stride: nat) {
    forall i :: 0 <= i < |t| ==> t[i] == base + stride * i
  }

  predicate StrictlyIncreasing(t: seq<nat>) {
    forall i, j :: 0 <= i < j < |t| ==> t[i] < t[j]
  }

  /** No two two-register blocks (one per entry of any table) share a register. */
  predicate BlocksDisjoint(tables: seq<seq<nat>>) {
    forall p, i, q, j ::
      0 <= p < |tables| && 0 <= i < |tables[p]| &&
      0 <= q < |tables| && 0 <= j < |tables[q]| && (p != q || i != j)
      ==> tables[p][i] + 1 < tables[q][j] || tables[q][j] + 1 < tables[p][i]
  }

  /** Every table is a non-empty stride-2 run, and each table starts at or
      after the register following the last block of the table before it. */
  predicate Packed(tables: seq<seq<nat>>) {
    && (forall p :: 0 <= p < |tables| ==> |tables[p]| > 0 && Stride(tables[p], 2))
    && (forall p :: 0 < p < |tables| ==> tables[p - 1][0] + 2 * |tables[p - 1]| <= tables[p][0])
  }

  /** A table built by a constant stride is the arithmetic progression from its
      first entry. */
  lemma {:induction false} StrideIsProgression(t: seq<nat>, stride: nat)
    requires |t| > 0 && Stride(t, stride)
    ensures Progression(t, t[0], stride)
    decreases |t|
  {
    if |t| > 1 {
      var p := t[..|t| - 1];
      assert Stride(p, stride);
      StrideIsProgression(p, stride);
      var k := |t| - 1;
      assert t[k] == t[k - 1] + stride == t[0] + stride * (k - 1) + stride;
      assert stride * (k - 1) + stride == stride * k;
    }
  }

  /** A positive-stride table is strictly increasing, so no address repeats. */
  lemma StrideIncreasing(t: seq<nat>, stride: nat)
    requires stride > 0 && Stride(t, stride)
    ensures StrictlyIncreasing(t)
  {
    if |t| > 0 {
      StrideIsProgression(t, stride);
      forall i, j | 0 <= i < j < |t|
        ensures t[i] < t[j]
      {
        assert stride * i < stride * j;
      }
    }
  }

  /** In packed tables, every later table starts past the end of every
      earlier one. */
  lemma {:induction false} PackedOrdered(tables: seq<seq<nat>>, p: nat, q: nat)
    requires Packed(tables) && p < q < |tables|
    ensures tables[p][0] + 2 * |tables[p]| <= tables[q][0]
    decreases q - p
  {
    if q > p + 1 {
      PackedOrdered(tables, p, q - 1);
      assert tables[q - 1][0] + 2 * |tables[q - 1]| <= tables[q][0];
    }
  }

  /** Packed stride-2 tables never let two blocks overlap. */
  lemma PackedBlocksDisjoint(tables: seq<seq<nat>>)
    requires Packed(tables)
    ensures BlocksDisjoint(tables)
  {
    forall p | 0 <= p < |tables|
      ensures Progression(tables[p], tables[p][0], 2)
    {
      StrideIsProgression(tables[p], 2);
    }
    forall p, i, q, j |
      0 <= p < |tables| && 0 <= i < |tables[p]| &&
      0 <= q < |tables| && 0 <= j < |tables[q]| && (p != q || i != j)
      ensures tables[p][i] + 1 < tables[q][j] || tables[q][j] + 1 < tables[p][i]
    {
      if p < q {
        PackedOrdered(tables, p, q);
      } else if q < p {
        PackedOrdered(tables, q, p);
      }
    }
  }

  /** The layout both concrete models follow: coils and discrete inputs are
      consecutive addresses, the register tables are packed stride-2 runs. */
  predicate WellFormed(m: RegisterMap) {
    && Stride(m.digitalOutputs, 1)
    && Stride(m.digitalInputs, 1)
    && Packed(RegisterBlocks(m))
  }

  /** What a well-formed map guarantees: no address is repeated within a table,
      and no register is shared between two blocks of any register tables. */
  lemma WellFormedLayout(m: RegisterMap)
    requires WellFormed(m)
    ensures StrictlyIncreasing(m.digitalOutputs) && StrictlyIncreasing(m.digitalInputs)
    ensures forall p :: 0 <= p < |RegisterBlocks(m)| ==> StrictlyIncreasing(RegisterBlocks(m)[p])
    ensures BlocksDisjoint(RegisterBlocks(m))
  {
    StrideIncreasing(m.digitalOutputs, 1);
    StrideIncreasing(m.digitalInputs, 1);
    var tables := RegisterBlocks(m);
    forall p | 0 <= p < |tables|
      ensures StrictlyIncreasing(tables[p])
    {
      StrideIncreasing(tables[p], 2);
    }
    PackedBlocksDisjoint(tables);
  }

  /** The ADAM-6052 register tables are stride-2 runs. */
  lemma Adam6052Strides()
    ensures forall p :: 0 <= p < |RegisterBlocks(Adam6052)| ==> Stride(RegisterBlocks(Adam6052)[p], 2)
  {
    var t := RegisterBlocks(Adam6052);
    assert Stride(t[0], 2) && Stride(t[1], 2);
    assert Stride(t[2], 2) && Stride(t[3], 2);
    assert Stride(t[4], 2);
  }

  /** The ADAM-6052 literal tables follow the well-formed layout. */
  lemma Adam6052WellFormed()
    ensures WellFormed(Adam6052)
  {
    assert Stride(Adam6052.digitalOutputs, 1);
    assert Stride(Adam6052.digitalInputs, 1);
    Adam6052Strides();
  }

  /** The ADAM-6060 register tables are stride-2 runs. */
  lemma Adam6060Strides()
    ensures forall p :: 0 <= p < |RegisterBlocks(Adam6060)| ==> Stride(RegisterBlocks(Adam6060)[p], 2)
  {
    var t := RegisterBlocks(Adam6060);
    assert Stride(t[0], 2) && Stride(t[1], 2);
    assert Stride(t[2], 2) && Stride(t[3], 2);
    assert Stride(t[4], 2);
  }

  /** The ADAM-6060 literal tables follow the well-formed layout. */
  lemma Adam6060WellFormed()
    ensures WellFormed(Adam6060)
  {
    assert Stride(Adam6060.digitalOutputs, 1);
    assert Stride(Adam6060.digitalInputs, 1);
    Adam6060Strides();
  }

  /** The ADAM-6052 tables: eight entries each, consecutive coils and inputs,
      and five packed stride-2 register tables that share no register. */
  lemma Adam6052Layout()
    ensures |Adam6052.digitalOutputs| == 8 && |Adam6052.digitalInputs| == 8
    ensures forall p :: 0 <= p < |RegisterBlocks(Adam6052)| ==> |RegisterBlocks(Adam6052)[p]| == 8
    ensures WellFormed(Adam6052)
    ensures BlocksDisjoint(RegisterBlocks(Adam6052))
  {
    Adam6052WellFormed();
    WellFormedLayout(Adam6052);
  }

  /** The ADAM-6060 tables: six entries each, with the same layout guarantees. */
  lemma Adam6060Layout()
    ensures |Adam6060.digitalOutputs| == 6 && |Adam6060.digitalInputs| == 6
    ensures forall p :: 0 <= p < |RegisterBlocks(Adam6060)| ==> |RegisterBlocks(Adam6060)[p]| == 6
    ensures WellFormed(Adam6060)
    ensures BlocksDisjoint(RegisterBlocks(Adam6060))
  {
    Adam6060WellFormed();
    WellFormedLayout(Adam6060);
  }

  /** Where the logical signals of the two models sit: output `i` is coil
      16 + i, input `i` is discrete input `i`, and counter `i` starts at
      register 2 * i. */
  lemma ModelAddresses()
    ensures forall i :: 0 <= i < 8 ==>
      && Adam6052.digitalOutputs[i] == 16 + i
      && Adam6052.digitalInputs[i] == i
      && Adam6052.counterRegisters[i] == 2 * i
    ensures forall i :: 0 <= i < 6 ==>
      && Adam6060.digitalOutputs[i] == 16 + i
      && Adam6060.digitalInputs[i] == i
      && Adam6060.counterRegisters[i] == 2 * i
  {
    Adam6052WellFormed();
    Adam6060WellFormed();
    StrideIsProgression(Adam6052.digitalOutputs, 1);
    StrideIsProgression(Adam6052.digitalInputs, 1);
    StrideIsProgression(Adam6052.counterRegisters, 2);
    StrideIsProgression(Adam6060.digitalOutputs, 1);
    StrideIsProgression(Adam6060.digitalInputs, 1);
    StrideIsProgression(Adam6060.counterRegisters, 2);
  }
}
