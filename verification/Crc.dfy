/**
 The table-driven CRC-32 of PNG chunks (RFC 2083, sections 3.4 and 15), against bit-by-bit division.
 */
module Crc {

  const POLYNOMIAL: bv32 := 0xedb88320
  const ALL_ONES: bv32 := 0xffffffff

  /** Addition of registers, bit by bit. */
  function Add(a: bv32, b: bv32): bv32 {
    a ^ b
  }

  function Shift(c: bv32): bv32 {
    c >> 1
  }

  predicate LowBit(c: bv32) {
    c & 1 == 1
  }

  /** One division step: shift the register, and subtract the divisor when a one falls out. */
  function Step(c: bv32): bv32 {
    if LowBit(c) then Add(POLYNOMIAL, Shift(c)) else Shift(c)
  }

  function Steps(c: bv32, n: nat): bv32 {
    if n == 0 then c else Step(Steps(c, n - 1))
  }

  /** The register after the first n bits of a byte, least significant first, each added to the bit about to
      fall out. */
  function DivideBits(c: bv32, b: bv8, n: nat): bv32
    requires n <= 8
  {
    if n == 0 then c else Step(Add(DivideBits(c, b, n - 1), BitAt(b, n - 1)))
  }

  function DivideByte(c: bv32, b: bv8): bv32 {
    DivideBits(c, b, 8)
  }

  /** The register after a message. */
  function Divide(c: bv32, message: seq<bv8>): bv32 {
    if message == [] then c else DivideByte(Divide(c, message[..|message| - 1]), message[|message| - 1])
  }

  /** CRC-32: the register starts as all ones and is complemented at the end. */
  function Crc32(message: seq<bv8>): bv32 {
    Divide(ALL_ONES, message) ^ ALL_ONES
  }

  // ---------------------------------------------------------------- the table

  /** A byte taken through the table. */
  function TableByte(c: bv32, b: bv8): bv32 {
    Add(Steps(Low(Add(c, b as bv32)), 8), c >> 8)
  }

  lemma ShiftDistributes(x: bv32, y: bv32)
    ensures Shift(Add(x, y)) == Add(Shift(x), Shift(y))
  {
  }

  lemma EvenKeepsLow(x: bv32, y: bv32)
    requires !LowBit(y)
    ensures LowBit(Add(x, y)) == LowBit(x)
  {
  }

  lemma Associates(a: bv32, b: bv32, c: bv32)
    ensures Add(a, Add(b, c)) == Add(Add(a, b), c)
  {
  }

  /** Adding a number whose low bit is clear commutes with a step. */
  lemma StepAdds(x: bv32, y: bv32)
    requires !LowBit(y)
    ensures Step(Add(x, y)) == Add(Step(x), Shift(y))
  {
    hide Add, Shift, LowBit;
    ShiftDistributes(x, y);
    EvenKeepsLow(x, y);
    Associates(POLYNOMIAL, Shift(x), Shift(y));
  }

  /** The bits of a byte from the n-th on. */
  function Left(b: bv8, n: nat): bv32
    requires n <= 8
  {
    b as bv32 >> n
  }

  /** The n-th bit of a byte. */
  function BitAt(b: bv8, n: nat): bv32
    requires n < 8
  {
    (b as bv32 >> n) & 1
  }

  /** The bits of a byte after the n-th, where they stand once the n-th is the lowest. */
  function After(b: bv8, n: nat): bv32
    requires n < 8
  {
    Left(b, n) & 0xfffffffe
  }

  lemma LeftSplits(b: bv8, n: nat)
    requires n < 8
    ensures Left(b, n) == Add(BitAt(b, n), After(b, n))
    ensures !LowBit(After(b, n))
    ensures Shift(After(b, n)) == Left(b, n + 1)
  {
    if n == 0 {} else if n == 1 {} else if n == 2 {} else if n == 3 {} else if n == 4 {} else if n == 5 {} else if n == 6 {} else {}
  }

  /** Stepping with all of a byte's bits added at once, less those not yet due, is dividing by them in turn. */
  lemma {:induction false} BitsInTurn(c: bv32, b: bv8, n: nat)
    requires n <= 8
    ensures Steps(Add(c, b as bv32), n) == Add(DivideBits(c, b, n), Left(b, n))
    decreases n
  {
    hide Step, Left, BitAt, DivideBits, Steps, Add;
    if n == 0 {
      NoneTaken(c, b);
    } else {
      BitsInTurn(c, b, n - 1);
      StepsOneMore(Add(c, b as bv32), n);
      OneMoreBit(c, b, Steps(Add(c, b as bv32), n - 1), n);
    }
  }

  lemma OneMoreBit(c: bv32, b: bv8, stepped: bv32, n: nat)
    requires 0 < n <= 8 && stepped == Add(DivideBits(c, b, n - 1), Left(b, n - 1))
    ensures Step(stepped) == Add(DivideBits(c, b, n), Left(b, n))
  {
    hide Add, Shift, LowBit, Step, Left, BitAt, After;
    var d := DivideBits(c, b, n - 1);
    LeftSplits(b, n - 1);
    Associates(d, BitAt(b, n - 1), After(b, n - 1));
    StepAdds(Add(d, BitAt(b, n - 1)), After(b, n - 1));
  }

  lemma NoneTaken(c: bv32, b: bv8)
    ensures Steps(Add(c, b as bv32), 0) == Add(DivideBits(c, b, 0), Left(b, 0))
  {
    hide Add, Left;
    LeftOfAll(b);
  }

  lemma StepsOneMore(c: bv32, n: nat)
    requires n > 0
    ensures Steps(c, n) == Step(Steps(c, n - 1))
  {
    hide Step;
  }

  lemma LeftOfAll(b: bv8)
    ensures Left(b, 0) == b as bv32
  {
  }

  /** A register without its low byte. */
  function High(x: bv32): bv32 {
    x & 0xffffff00
  }

  function Low(x: bv32): bv32 {
    x & 0xff
  }

  function Down(x: bv32, n: nat): bv32 {
    if n == 0 then x else Shift(Down(x, n - 1))
  }

  function LowMask(n: nat): bv32
    requires n <= 8
  {
    if n == 0 then 0xff else if n == 1 then 0x7f else if n == 2 then 0x3f else if n == 3 then 0x1f
    else if n == 4 then 0xf else if n == 5 then 7 else if n == 6 then 3 else if n == 7 then 1 else 0
  }

  lemma EachClearShifts(y: bv32)
    ensures y & 0xff == 0 ==> !LowBit(y) && Shift(y) & 0x7f == 0
    ensures y & 0x7f == 0 ==> !LowBit(y) && Shift(y) & 0x3f == 0
    ensures y & 0x3f == 0 ==> !LowBit(y) && Shift(y) & 0x1f == 0
    ensures y & 0x1f == 0 ==> !LowBit(y) && Shift(y) & 0xf == 0
    ensures y & 0xf == 0 ==> !LowBit(y) && Shift(y) & 7 == 0
    ensures y & 7 == 0 ==> !LowBit(y) && Shift(y) & 3 == 0
    ensures y & 3 == 0 ==> !LowBit(y) && Shift(y) & 1 == 0
    ensures y & 1 == 0 ==> !LowBit(y) && Shift(y) & 0 == 0
  {
  }

  lemma ClearShifts(y: bv32, n: nat)
    requires n < 8 && y & LowMask(n) == 0
    ensures !LowBit(y) && Shift(y) & LowMask(n + 1) == 0
  {
    hide LowBit, Shift;
    EachClearShifts(y);
  }

  lemma {:induction false} HighIsClear(x: bv32, n: nat)
    requires n <= 8
    ensures Down(High(x), n) & LowMask(n) == 0
    decreases n
  {
    hide High, Shift, LowMask;
    if n == 0 {
      HighClears(x);
    } else {
      HighIsClear(x, n - 1);
      ClearShifts(Down(High(x), n - 1), n - 1);
    }
  }

  lemma HighClears(x: bv32)
    ensures High(x) & LowMask(0) == 0
  {
  }

  lemma {:induction false} StepsAdd(x: bv32, y: bv32, n: nat)
    requires n <= 8
    ensures Steps(Add(x, High(y)), n) == Add(Steps(x, n), Down(High(y), n))
    decreases n
  {
    hide Add, Shift, LowBit, Step, High, LowMask;
    if n > 0 {
      StepsAdd(x, y, n - 1);
      HighIsClear(y, n - 1);
      ClearShifts(Down(High(y), n - 1), n - 1);
      StepAdds(Steps(x, n - 1), Down(High(y), n - 1));
    }
  }

  lemma LowAndHigh(z: bv32)
    ensures z == Add(Low(z), High(z))
  {
  }

  lemma NothingLeft(x: bv32, b: bv8)
    ensures Add(x, Left(b, 8)) == x
  {
    assert Left(b, 8) == 0;
  }

  lemma EightDown(x: bv32)
    ensures Down(x, 8) == Shift(Shift(Shift(Shift(Shift(Shift(Shift(Shift(x))))))))
  {
    hide Shift;
    assert Down(x, 1) == Shift(x);
    assert Down(x, 2) == Shift(Down(x, 1));
    assert Down(x, 3) == Shift(Down(x, 2));
    assert Down(x, 4) == Shift(Down(x, 3));
    assert Down(x, 5) == Shift(Down(x, 4));
    assert Down(x, 6) == Shift(Down(x, 5));
    assert Down(x, 7) == Shift(Down(x, 6));
  }

  lemma EightShifts(x: bv32)
    ensures Shift(Shift(Shift(Shift(Shift(Shift(Shift(Shift(x)))))))) == x >> 8
  {
  }

  lemma ByteLeavesHigh(c: bv32, b: bv8)
    ensures High(Add(c, b as bv32)) >> 8 == c >> 8
  {
  }

  /** Taking a byte through the table is dividing by its eight bits. */
  lemma TableIsDivision(c: bv32, b: bv8)
    ensures TableByte(c, b) == DivideByte(c, b)
  {
    hide Add, Shift, LowBit, Step, Steps, High, Left, BitAt, DivideBits, Low, Down;
    var x := Add(c, b as bv32);
    BitsInTurn(c, b, 8);
    NothingLeft(DivideBits(c, b, 8), b);
    LowAndHigh(x);
    StepsAdd(Low(x), x, 8);
    EightDown(High(x));
    EightShifts(High(x));
    ByteLeavesHigh(c, b);
  }

  // ---------------------------------------------------------------- the loops

  lemma IndexInTable(x: bv32)
    ensures 0 <= Low(x) as int < 256
    ensures Low(x) as int as bv32 == Low(x)
  {
    assert Low(x) as bv8 as bv32 == Low(x);
  }

  function Entry(i: nat): bv32
    requires i < 256
  {
    Steps(i as bv32, 8)
  }

  /** The table, filled in place. */
  method FillTable() returns (t: array<bv32>)
    ensures t.Length == 256 && fresh(t)
    ensures forall i | 0 <= i < 256 :: t[i] == Entry(i)
  {
    hide Step, Entry;
    t := new bv32[256];
    for i := 0 to 256
      invariant forall k | 0 <= k < i :: t[k] == Entry(k)
    {
      var first := i as bv32;
      var c := first;
      for j := 0 to 8
        invariant c == Steps(first, j)
        invariant forall k | 0 <= k < i :: t[k] == Entry(k)
      {
        OneStep(c);
        c := if c & 1 == 1 then 0xedb88320 ^ (c >> 1) else c >> 1;
      }
      EntryIs(i);
      t[i] := c;
    }
  }

  lemma EntryIs(i: nat)
    requires i < 256
    ensures Entry(i) == Steps(i as bv32, 8)
  {
    hide Steps;
  }

  lemma OneStep(c: bv32)
    ensures Step(c) == if c & 1 == 1 then 0xedb88320 ^ (c >> 1) else c >> 1
  {
  }

  /** `crc32` over the table. */
  method Crc32Of(t: array<bv32>, message: seq<bv8>) returns (crc: bv32)
    requires t.Length == 256 && forall i | 0 <= i < 256 :: t[i] == Entry(i)
    ensures crc == Crc32(message)
  {
    hide Divide, Entry, TableByte, Low, Add;
    var c: bv32 := ALL_ONES;
    NothingDivided();
    for i := 0 to |message|
      invariant c == Divide(ALL_ONES, message[..i])
    {
      var b := message[i];
      var low := Low(Add(c, b as bv32));
      IndexInTable(Add(c, b as bv32));
      OneMoreByte(message, i);
      TableIsDivision(c, b);
      Looks(c, b);
      c := Add(t[low as int], c >> 8);
    }
    assert message[..|message|] == message;
    crc := c ^ ALL_ONES;
  }

  /** The table's entry for a byte and the register moved down make the byte's step. */
  lemma Looks(c: bv32, b: bv8)
    ensures Low(Add(c, b as bv32)) as int < 256
    ensures TableByte(c, b) == Add(Entry(Low(Add(c, b as bv32)) as int), c >> 8)
  {
    hide Steps, Add, Low;
    IndexInTable(Add(c, b as bv32));
  }

  lemma NothingDivided()
    ensures Divide(ALL_ONES, []) == ALL_ONES
  {
  }

  lemma OneMoreByte(message: seq<bv8>, i: nat)
    requires i < |message|
    ensures Divide(ALL_ONES, message[..i + 1]) == DivideByte(Divide(ALL_ONES, message[..i]), message[i])
  {
    hide DivideByte;
    assert message[..i + 1][..i] == message[..i];
  }
}
