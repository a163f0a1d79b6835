/** Decoding of values spread over two 16-bit Modbus input registers. */
module Decode {
  import opened Hex

  const WordBase: nat := 0x1_0000

  /** The content of one 16-bit Modbus register. */
  type Word = w: nat | w < 0x1_0000

  /** A 32-bit counter stored as a low register followed by a high register:
      the low register is the remainder and the high register the quotient
      of the count by 65536. */
  function CounterValue(low: Word, high: Word): (r: nat)
    ensures r < WordBase * WordBase
    ensures r / WordBase == high && r % WordBase == low
  {
    high * WordBase + low
  }

  /** The two registers that hold a 32-bit count, low register first. */
  function SplitCounter(v: nat): (w: (Word, Word))
    requires v < WordBase * WordBase
    ensures CounterValue(w.0, w.1) == v
  {
    (v % WordBase, v / WordBase)
  }

  /** Composing and splitting are inverse: a register pair and a 32-bit count
      determine each other. */
  lemma CounterRoundTrip(low: Word, high: Word, v: nat)
    requires v < WordBase * WordBase
    ensures SplitCounter(CounterValue(low, high)) == (low, high)
    ensures CounterValue(low, high) == v <==> SplitCounter(v) == (low, high)
  {
  }

  lemma CounterExample()
    ensures CounterValue(5, 2) == 131077
  {
  }

  /** The text one register contributes to a module name: nothing for a zero
      register, otherwise its lower-case hexadecimal numeral. */
  function Segment(w: Word): (s: string)
    ensures IsNumeral(s) && |s| <= 4
    ensures s == "" <==> w == 0
    ensures FromHex(s) == w
    ensures w != 0 ==> IsCanonical(s)
  {
    if w == 0 then "" else FromToHex(w); HexWordLength(w); ToHex(w)
  }

  /** A 16-bit value never needs more than four hexadecimal digits. */
  lemma HexWordLength(w: Word)
    ensures |ToHex(w)| <= 4
  {
    var a, b, c := w / 16, w / 256, w / 4096;
    assert a / 16 == b && b / 16 == c && c < 16;
    if w >= 16 {
      assert |ToHex(w)| == |ToHex(a)| + 1;
      if a >= 16 {
        assert |ToHex(a)| == |ToHex(b)| + 1;
        if b >= 16 {
          assert |ToHex(b)| == |ToHex(c)| + 1;
        }
      }
    }
  }

  /** The identification string read from the module-name registers. */
  function ModuleName(low: Word, high: Word): (r: string)
    ensures IsNumeral(r) && |r| <= 8
    ensures r == "" <==> low == 0 && high == 0
  {
    Segment(low) + Segment(high)
  }

  /** The name is the low register's numeral followed by the high register's:
      cutting it after the low segment reads both registers back. */
  lemma ModuleNameSegments(low: Word, high: Word)
    ensures var r := ModuleName(low, high);
            var k := |Segment(low)|;
            k <= |r| && (low == 0 <==> k == 0) && (high == 0 <==> k == |r|)
            && FromHex(r[..k]) == low && FromHex(r[k..]) == high
            && (low != 0 ==> IsCanonical(r[..k]))
            && (high != 0 ==> IsCanonical(r[k..]))
  {
    var r := ModuleName(low, high);
    var k := |Segment(low)|;
    assert r[..k] == Segment(low);
    assert r[k..] == Segment(high);
  }

  lemma ModuleNameExamples()
    ensures ModuleName(0x41, 0x42) == "4142"
    ensures ModuleName(0, 0x5A) == "5a"
  {
    assert ToHex(0x41) == "41";
    assert ToHex(0x42) == "42";
    assert ToHex(0x5A) == "5a";
  }

  /** Different register pairs can produce the same name, because zero
      registers are dropped and segments are not padded. */
  lemma ModuleNameAmbiguous()
    ensures ModuleName(0x4142, 0) == ModuleName(0x41, 0x42) == ModuleName(0, 0x4142)
  {
    assert ToHex(0x41) == "41";
    assert ToHex(0x42) == "42";
    assert ToHex(0x4142) == ToHex(0x414) + "2" == "4142";
  }
}
