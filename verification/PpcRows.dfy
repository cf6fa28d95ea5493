/**
  The tables of include/bedbug/tables.h that the assembler, the disassembler and the stepper are built
  with: the operands, the 206 opcode rows in small groups, and the special registers.
 */
module PpcRows {
  import opened Tables
  import opened TableCheck

  // ----- operands -----

  const crbD := Operand(5, 5, 21, Plain, false)
  const crbA := Operand(6, 5, 16, Plain, false)
  const crbB := Operand(7, 5, 11, Plain, false)
  const CRM := Operand(8, 8, 12, Plain, false)
  const Disp := Operand(9, 15, 0, Offset, false)
  const MB := Operand(16, 5, 6, Plain, false)
  const ME := Operand(17, 5, 1, Plain, false)
  const NB := Operand(18, 5, 11, Plain, false)
  const OE := Operand(19, 1, 10, Plain, true)
  const rA := Operand(20, 5, 16, Reg, false)
  const rB := Operand(21, 5, 11, Reg, false)
  const Rc := Operand(22, 1, 0, Plain, true)
  const rD := Operand(23, 5, 21, Reg, false)
  const rS := Operand(24, 5, 21, Reg, false)
  const SH := Operand(25, 5, 11, Plain, false)
  const SIMM := Operand(26, 16, 0, Plain, false)
  const SR := Operand(27, 4, 16, Plain, false)
  const TO := Operand(28, 5, 21, Plain, false)
  const UIMM := Operand(29, 16, 0, Plain, false)
  const crfD := Operand(30, 3, 23, Plain, false)
  const crfS := Operand(31, 3, 18, Plain, false)
  const Len := Operand(32, 1, 21, Plain, false)
  const spr := Operand(33, 10, 11, Spr, false)
  const tbr := Operand(34, 10, 11, Tbr, false)

  // ----- opcodes -----

  function Rows1(): List<Row> {
    Cons(D(3, L3(TO, rA, SIMM), "twi", false),
    Cons(D(7, L3(rD, rA, SIMM), "mulli", false),
    Cons(D(8, L3(rD, rA, SIMM), "subfic", false),
    Cons(D(10, L4(crfD, Len, rA, UIMM), "cmpli", false),
    Cons(D(11, L4(crfD, Len, rA, SIMM), "cmpi", false), Nil)))))
  }

  lemma Rows1Ok(rest: seq<Opcode>)
    requires Run(rest, 0x3000_0000)
    ensures Run(Prepend(Rows1(), rest), 0x0C00_0000)
  {
    PrependRun(Rows1(), 0x0C00_0000, 0x3000_0000, rest);
  }

  function Rows2(): List<Row> {
    Cons(D(12, L3(rD, rA, SIMM), "addic", false),
    Cons(D(13, L3(rD, rA, SIMM), "addic.", false),
    Cons(D(14, L3(rD, rA, SIMM), "addi", true),
    Cons(D(15, L3(rD, rA, SIMM), "addis", true),
    Cons(JumpIf(0, 0, "bc"), Nil)))))
  }

  lemma Rows2Ok(rest: seq<Opcode>)
    requires Run(rest, 0x4000_0001)
    ensures Run(Prepend(Rows2(), rest), 0x3000_0000)
  {
    PrependRun(Rows2(), 0x3000_0000, 0x4000_0001, rest);
  }

  function Rows3(): List<Row> {
    Cons(JumpIf(0, 1, "bcl"),
    Cons(JumpIf(1, 0, "bca"),
    Cons(JumpIf(1, 1, "bcla"),
    Cons(SystemCall("sc"),
    Cons(Jump(0, 0, "b"), Nil)))))
  }

  lemma Rows3Ok(rest: seq<Opcode>)
    requires Run(rest, 0x4800_0001)
    ensures Run(Prepend(Rows3(), rest), 0x4000_0001)
  {
    PrependRun(Rows3(), 0x4000_0001, 0x4800_0001, rest);
  }

  function Rows4(): List<Row> {
    Cons(Jump(0, 1, "bl"),
    Cons(Jump(1, 0, "ba"),
    Cons(Jump(1, 1, "bla"),
    Cons(X(19, 0, 0, L2(crfD, crfS), "mcrf", false),
    Cons(JumpTo(16, 0, "bclr"), Nil)))))
  }

  lemma Rows4Ok(rest: seq<Opcode>)
    requires Run(rest, 0x4C00_0021)
    ensures Run(Prepend(Rows4(), rest), 0x4800_0001)
  {
    PrependRun(Rows4(), 0x4800_0001, 0x4C00_0021, rest);
  }

  function Rows5(): List<Row> {
    Cons(JumpTo(16, 1, "bclrl"),
    Cons(X(19, 33, 0, L3(crbD, crbA, crbB), "crnor", false),
    Cons(X(19, 50, 0, Nil, "rfi", false),
    Cons(X(19, 129, 0, L3(crbD, crbA, crbB), "crandc", false),
    Cons(X(19, 150, 0, Nil, "isync", false), Nil)))))
  }

  lemma Rows5Ok(rest: seq<Opcode>)
    requires Run(rest, 0x4C00_0182)
    ensures Run(Prepend(Rows5(), rest), 0x4C00_0021)
  {
    PrependRun(Rows5(), 0x4C00_0021, 0x4C00_0182, rest);
  }

  function Rows6(): List<Row> {
    Cons(X(19, 193, 0, L3(crbD, crbA, crbB), "crxor", false),
    Cons(X(19, 225, 0, L3(crbD, crbA, crbB), "crnand", false),
    Cons(X(19, 257, 0, L3(crbD, crbA, crbB), "crand", false),
    Cons(X(19, 289, 0, L3(crbD, crbA, crbB), "creqv", false),
    Cons(X(19, 417, 0, L3(crbD, crbA, crbB), "crorc", false), Nil)))))
  }

  lemma Rows6Ok(rest: seq<Opcode>)
    requires Run(rest, 0x4C00_0382)
    ensures Run(Prepend(Rows6(), rest), 0x4C00_0182)
  {
    PrependRun(Rows6(), 0x4C00_0182, 0x4C00_0382, rest);
  }

  function Rows7(): List<Row> {
    Cons(X(19, 449, 0, L3(crbD, crbA, crbB), "cror", false),
    Cons(JumpTo(528, 0, "bcctr"),
    Cons(JumpTo(528, 1, "bcctrl"),
    Cons(M(20, 0, L6(rA, rS, SH, MB, ME, Rc), "rlwimi"), Nil))))
  }

  lemma Rows7Ok(rest: seq<Opcode>)
    requires Run(rest, 0x5000_0001)
    ensures Run(Prepend(Rows7(), rest), 0x4C00_0382)
  {
    PrependRun(Rows7(), 0x4C00_0382, 0x5000_0001, rest);
  }

  function Rows8(): List<Row> {
    Cons(M(20, 1, L6(rA, rS, SH, MB, ME, Rc), "rlwimi."),
    Cons(M(21, 0, L6(rA, rS, SH, MB, ME, Rc), "rlwinm"), Nil))
  }

  lemma Rows8Ok(rest: seq<Opcode>)
    requires Run(rest, 0x5400_0001)
    ensures Run(Prepend(Rows8(), rest), 0x5000_0001)
  {
    PrependRun(Rows8(), 0x5000_0001, 0x5400_0001, rest);
  }

  function Rows9(): List<Row> {
    Cons(M(21, 1, L6(rA, rS, SH, MB, ME, Rc), "rlwinm."),
    Cons(M(23, 0, L6(rA, rS, rB, MB, ME, Rc), "rlwnm"), Nil))
  }

  lemma Rows9Ok(rest: seq<Opcode>)
    requires Run(rest, 0x5C00_0001)
    ensures Run(Prepend(Rows9(), rest), 0x5400_0001)
  {
    PrependRun(Rows9(), 0x5400_0001, 0x5C00_0001, rest);
  }

  function Rows10(): List<Row> {
    Cons(M(23, 1, L6(rA, rS, rB, MB, ME, Rc), "rlwnm."),
    Cons(D(24, L3(rA, rS, UIMM), "ori", false),
    Cons(D(25, L3(rA, rS, UIMM), "oris", false),
    Cons(D(26, L3(rA, rS, UIMM), "xori", false), Nil))))
  }

  lemma Rows10Ok(rest: seq<Opcode>)
    requires Run(rest, 0x6C00_0000)
    ensures Run(Prepend(Rows10(), rest), 0x5C00_0001)
  {
    PrependRun(Rows10(), 0x5C00_0001, 0x6C00_0000, rest);
  }

  function Rows11(): List<Row> {
    Cons(D(27, L3(rA, rS, UIMM), "xoris", false),
    Cons(D(28, L3(rA, rS, UIMM), "andi.", false),
    Cons(D(29, L3(rA, rS, UIMM), "andis.", false),
    Cons(X(31, 0, 0, L4(crfD, Len, rA, rB), "cmp", false),
    Cons(X(31, 4, 0, L3(TO, rA, rB), "tw", false), Nil)))))
  }

  lemma Rows11Ok(rest: seq<Opcode>)
    requires Run(rest, 0x7C00_0010)
    ensures Run(Prepend(Rows11(), rest), 0x6C00_0000)
  {
    PrependRun(Rows11(), 0x6C00_0000, 0x7C00_0010, rest);
  }

  function Rows12(): List<Row> {
    Cons(XO(31, 8, 0, 0, L5(rD, rA, rB, OE, Rc), "subfc"),
    Cons(XO(31, 8, 0, 1, L5(rD, rA, rB, OE, Rc), "subfc."), Nil))
  }

  lemma Rows12Ok(rest: seq<Opcode>)
    requires Run(rest, 0x7C00_0014)
    ensures Run(Prepend(Rows12(), rest), 0x7C00_0010)
  {
    PrependRun(Rows12(), 0x7C00_0010, 0x7C00_0014, rest);
  }

  function Rows13(): List<Row> {
    Cons(XO(31, 10, 0, 0, L5(rD, rA, rB, OE, Rc), "addc"),
    Cons(XO(31, 10, 0, 1, L5(rD, rA, rB, OE, Rc), "addc."),
    Cons(XO(31, 11, 0, 0, L4(rD, rA, rB, Rc), "mulhwu"), Nil)))
  }

  lemma Rows13Ok(rest: seq<Opcode>)
    requires Run(rest, 0x7C00_0017)
    ensures Run(Prepend(Rows13(), rest), 0x7C00_0014)
  {
    PrependRun(Rows13(), 0x7C00_0014, 0x7C00_0017, rest);
  }

  function Rows14(): List<Row> {
    Cons(XO(31, 11, 0, 1, L4(rD, rA, rB, Rc), "mulhwu."),
    Cons(X(31, 19, 0, L1(rD), "mfcr", false),
    Cons(X(31, 20, 0, L3(rD, rA, rB), "lwarx", true),
    Cons(X(31, 23, 0, L3(rD, rA, rB), "lwzx", true),
    Cons(X(31, 24, 0, L4(rA, rS, rB, Rc), "slw", false), Nil)))))
  }

  lemma Rows14Ok(rest: seq<Opcode>)
    requires Run(rest, 0x7C00_0031)
    ensures Run(Prepend(Rows14(), rest), 0x7C00_0017)
  {
    PrependRun(Rows14(), 0x7C00_0017, 0x7C00_0031, rest);
  }

  function Rows15(): List<Row> {
    Cons(X(31, 24, 1, L4(rA, rS, rB, Rc), "slw.", false),
    Cons(X(31, 26, 0, L3(rA, rS, Rc), "cntlzw", false),
    Cons(X(31, 26, 1, L3(rA, rS, Rc), "cntlzw.", false),
    Cons(X(31, 28, 0, L4(rA, rS, rB, Rc), "and", false), Nil))))
  }

  lemma Rows15Ok(rest: seq<Opcode>)
    requires Run(rest, 0x7C00_0039)
    ensures Run(Prepend(Rows15(), rest), 0x7C00_0031)
  {
    PrependRun(Rows15(), 0x7C00_0031, 0x7C00_0039, rest);
  }

  function Rows16(): List<Row> {
    Cons(X(31, 28, 1, L4(rA, rS, rB, Rc), "and.", false),
    Cons(X(31, 32, 0, L4(crfD, Len, rA, rB), "cmpl", false),
    Cons(XO(31, 40, 0, 0, L5(rD, rA, rB, OE, Rc), "subf"), Nil)))
  }

  lemma Rows16Ok(rest: seq<Opcode>)
    requires Run(rest, 0x7C00_0051)
    ensures Run(Prepend(Rows16(), rest), 0x7C00_0039)
  {
    PrependRun(Rows16(), 0x7C00_0039, 0x7C00_0051, rest);
  }

  function Rows17(): List<Row> {
    Cons(XO(31, 40, 0, 1, L5(rD, rA, rB, OE, Rc), "subf."),
    Cons(X(31, 54, 0, L2(rA, rB), "dcbst", true),
    Cons(X(31, 55, 0, L3(rD, rA, rB), "lwzux", false),
    Cons(X(31, 60, 0, L4(rA, rS, rB, Rc), "andc", false), Nil))))
  }

  lemma Rows17Ok(rest: seq<Opcode>)
    requires Run(rest, 0x7C00_0079)
    ensures Run(Prepend(Rows17(), rest), 0x7C00_0051)
  {
    PrependRun(Rows17(), 0x7C00_0051, 0x7C00_0079, rest);
  }

  function Rows18(): List<Row> {
    Cons(X(31, 60, 1, L4(rA, rS, rB, Rc), "andc.", false),
    Cons(XO(31, 75, 0, 0, L4(rD, rA, rB, Rc), "mulhw"),
    Cons(XO(31, 75, 0, 1, L4(rD, rA, rB, Rc), "mulhw."),
    Cons(X(31, 83, 0, L1(rD), "mfmsr", false),
    Cons(X(31, 86, 0, L2(rA, rB), "dcbf", true), Nil)))))
  }

  lemma Rows18Ok(rest: seq<Opcode>)
    requires Run(rest, 0x7C00_00AE)
    ensures Run(Prepend(Rows18(), rest), 0x7C00_0079)
  {
    PrependRun(Rows18(), 0x7C00_0079, 0x7C00_00AE, rest);
  }

  function Rows19(): List<Row> {
    Cons(X(31, 87, 0, L3(rD, rA, rB), "lbzx", true),
    Cons(XO(31, 104, 0, 0, L4(rD, rA, OE, Rc), "neg"),
    Cons(XO(31, 104, 0, 1, L4(rD, rA, OE, Rc), "neg."),
    Cons(X(31, 119, 0, L3(rD, rA, rB), "lbzux", false), Nil))))
  }

  lemma Rows19Ok(rest: seq<Opcode>)
    requires Run(rest, 0x7C00_00F8)
    ensures Run(Prepend(Rows19(), rest), 0x7C00_00AE)
  {
    PrependRun(Rows19(), 0x7C00_00AE, 0x7C00_00F8, rest);
  }

  function Rows20(): List<Row> {
    Cons(X(31, 124, 0, L4(rA, rS, rB, Rc), "nor", false),
    Cons(X(31, 124, 1, L4(rA, rS, rB, Rc), "nor.", false),
    Cons(XO(31, 136, 0, 0, L5(rD, rA, rB, OE, Rc), "subfe"), Nil)))
  }

  lemma Rows20Ok(rest: seq<Opcode>)
    requires Run(rest, 0x7C00_0111)
    ensures Run(Prepend(Rows20(), rest), 0x7C00_00F8)
  {
    PrependRun(Rows20(), 0x7C00_00F8, 0x7C00_0111, rest);
  }

  function Rows21(): List<Row> {
    Cons(XO(31, 136, 0, 1, L5(rD, rA, rB, OE, Rc), "subfe."),
    Cons(XO(31, 138, 0, 0, L5(rD, rA, rB, OE, Rc), "adde"), Nil))
  }

  lemma Rows21Ok(rest: seq<Opcode>)
    requires Run(rest, 0x7C00_0115)
    ensures Run(Prepend(Rows21(), rest), 0x7C00_0111)
  {
    PrependRun(Rows21(), 0x7C00_0111, 0x7C00_0115, rest);
  }

  function Rows22(): List<Row> {
    Cons(XO(31, 138, 0, 1, L5(rD, rA, rB, OE, Rc), "adde."),
    Cons(X(31, 144, 0, L2(CRM, rS), "mtcrf", false),
    Cons(X(31, 146, 0, L1(rS), "mtmsr", false),
    Cons(X(31, 150, 1, L3(rS, rA, rB), "stwcx.", false),
    Cons(X(31, 151, 0, L3(rS, rA, rB), "stwx", false), Nil)))))
  }

  lemma Rows22Ok(rest: seq<Opcode>)
    requires Run(rest, 0x7C00_016E)
    ensures Run(Prepend(Rows22(), rest), 0x7C00_0115)
  {
    PrependRun(Rows22(), 0x7C00_0115, 0x7C00_016E, rest);
  }

  function Rows23(): List<Row> {
    Cons(X(31, 183, 0, L3(rS, rA, rB), "stwux", false),
    Cons(XO(31, 200, 0, 0, L4(rD, rA, OE, Rc), "subfze"),
    Cons(XO(31, 200, 0, 1, L4(rD, rA, OE, Rc), "subfze."),
    Cons(XO(31, 202, 0, 0, L4(rD, rA, OE, Rc), "addze"), Nil))))
  }

  lemma Rows23Ok(rest: seq<Opcode>)
    requires Run(rest, 0x7C00_0195)
    ensures Run(Prepend(Rows23(), rest), 0x7C00_016E)
  {
    PrependRun(Rows23(), 0x7C00_016E, 0x7C00_0195, rest);
  }

  function Rows24(): List<Row> {
    Cons(XO(31, 202, 0, 1, L4(rD, rA, OE, Rc), "addze."),
    Cons(X(31, 210, 0, L2(SR, rS), "mtsr", false),
    Cons(X(31, 215, 0, L3(rS, rA, rB), "stbx", true),
    Cons(XO(31, 232, 0, 0, L4(rD, rA, OE, Rc), "subfme"),
    Cons(XO(31, 232, 0, 1, L4(rD, rA, OE, Rc), "subfme."), Nil)))))
  }

  lemma Rows24Ok(rest: seq<Opcode>)
    requires Run(rest, 0x7C00_01D4)
    ensures Run(Prepend(Rows24(), rest), 0x7C00_0195)
  {
    PrependRun(Rows24(), 0x7C00_0195, 0x7C00_01D4, rest);
  }

  function Rows25(): List<Row> {
    Cons(XO(31, 234, 0, 0, L4(rD, rA, OE, Rc), "addme"),
    Cons(XO(31, 234, 0, 1, L4(rD, rA, OE, Rc), "addme."),
    Cons(XO(31, 235, 0, 0, L5(rD, rA, rB, OE, Rc), "mullw"), Nil)))
  }

  lemma Rows25Ok(rest: seq<Opcode>)
    requires Run(rest, 0x7C00_01D7)
    ensures Run(Prepend(Rows25(), rest), 0x7C00_01D4)
  {
    PrependRun(Rows25(), 0x7C00_01D4, 0x7C00_01D7, rest);
  }

  function Rows26(): List<Row> {
    Cons(XO(31, 235, 0, 1, L5(rD, rA, rB, OE, Rc), "mullw."),
    Cons(X(31, 242, 0, L2(rS, rB), "mtsrin", false),
    Cons(X(31, 246, 0, L2(rA, rB), "dcbtst", true),
    Cons(X(31, 247, 0, L3(rS, rA, rB), "stbux", false), Nil))))
  }

  lemma Rows26Ok(rest: seq<Opcode>)
    requires Run(rest, 0x7C00_0214)
    ensures Run(Prepend(Rows26(), rest), 0x7C00_01D7)
  {
    PrependRun(Rows26(), 0x7C00_01D7, 0x7C00_0214, rest);
  }

  function Rows27(): List<Row> {
    Cons(XO(31, 266, 0, 0, L5(rD, rA, rB, OE, Rc), "add"),
    Cons(XO(31, 266, 0, 1, L5(rD, rA, rB, OE, Rc), "add."),
    Cons(X(31, 278, 0, L2(rA, rB), "dcbt", true),
    Cons(X(31, 279, 0, L3(rD, rA, rB), "lhzx", true), Nil))))
  }

  lemma Rows27Ok(rest: seq<Opcode>)
    requires Run(rest, 0x7C00_0238)
    ensures Run(Prepend(Rows27(), rest), 0x7C00_0214)
  {
    PrependRun(Rows27(), 0x7C00_0214, 0x7C00_0238, rest);
  }

  function Rows28(): List<Row> {
    Cons(X(31, 284, 0, L4(rA, rS, rB, Rc), "eqv", false),
    Cons(X(31, 284, 1, L4(rA, rS, rB, Rc), "eqv.", false),
    Cons(X(31, 306, 0, L1(rB), "tlbie", false),
    Cons(X(31, 310, 0, L3(rD, rA, rB), "eciwx", true),
    Cons(X(31, 311, 0, L3(rD, rA, rB), "lhzux", false), Nil)))))
  }

  lemma Rows28Ok(rest: seq<Opcode>)
    requires Run(rest, 0x7C00_0278)
    ensures Run(Prepend(Rows28(), rest), 0x7C00_0238)
  {
    PrependRun(Rows28(), 0x7C00_0238, 0x7C00_0278, rest);
  }

  function Rows29(): List<Row> {
    Cons(X(31, 316, 0, L4(rA, rS, rB, Rc), "xor", false),
    Cons(X(31, 316, 1, L4(rA, rS, rB, Rc), "xor.", false),
    Cons(X(31, 339, 0, L2(rD, spr), "mfspr", false),
    Cons(X(31, 343, 0, L3(rD, rA, rB), "lhax", true),
    Cons(X(31, 370, 0, Nil, "tlbia", false), Nil)))))
  }

  lemma Rows29Ok(rest: seq<Opcode>)
    requires Run(rest, 0x7C00_02E6)
    ensures Run(Prepend(Rows29(), rest), 0x7C00_0278)
  {
    PrependRun(Rows29(), 0x7C00_0278, 0x7C00_02E6, rest);
  }

  function Rows30(): List<Row> {
    Cons(X(31, 371, 0, L2(rD, tbr), "mftb", false),
    Cons(X(31, 375, 0, L3(rD, rA, rB), "lhaux", false),
    Cons(X(31, 407, 0, L3(rS, rA, rB), "sthx", true),
    Cons(X(31, 412, 0, L4(rA, rS, rB, Rc), "orc", false),
    Cons(X(31, 412, 1, L4(rA, rS, rB, Rc), "orc.", false), Nil)))))
  }

  lemma Rows30Ok(rest: seq<Opcode>)
    requires Run(rest, 0x7C00_036C)
    ensures Run(Prepend(Rows30(), rest), 0x7C00_02E6)
  {
    PrependRun(Rows30(), 0x7C00_02E6, 0x7C00_036C, rest);
  }

  function Rows31(): List<Row> {
    Cons(X(31, 438, 0, L3(rS, rA, rB), "ecowx", true),
    Cons(X(31, 439, 0, L3(rS, rA, rB), "sthux", false),
    Cons(X(31, 444, 0, L4(rA, rS, rB, Rc), "or", false),
    Cons(X(31, 444, 1, L4(rA, rS, rB, Rc), "or.", false), Nil))))
  }

  lemma Rows31Ok(rest: seq<Opcode>)
    requires Run(rest, 0x7C00_0396)
    ensures Run(Prepend(Rows31(), rest), 0x7C00_036C)
  {
    PrependRun(Rows31(), 0x7C00_036C, 0x7C00_0396, rest);
  }

  function Rows32(): List<Row> {
    Cons(XO(31, 459, 0, 0, L5(rD, rA, rB, OE, Rc), "divwu"),
    Cons(XO(31, 459, 0, 1, L5(rD, rA, rB, OE, Rc), "divwu."),
    Cons(X(31, 467, 0, L2(spr, rS), "mtspr", false),
    Cons(X(31, 470, 0, L2(rA, rB), "dcbi", true), Nil))))
  }

  lemma Rows32Ok(rest: seq<Opcode>)
    requires Run(rest, 0x7C00_03B8)
    ensures Run(Prepend(Rows32(), rest), 0x7C00_0396)
  {
    PrependRun(Rows32(), 0x7C00_0396, 0x7C00_03B8, rest);
  }

  function Rows33(): List<Row> {
    Cons(X(31, 476, 0, L4(rA, rS, rB, Rc), "nand", false),
    Cons(X(31, 476, 1, L4(rA, rS, rB, Rc), "nand.", false),
    Cons(XO(31, 491, 0, 0, L5(rD, rA, rB, OE, Rc), "divw"), Nil)))
  }

  lemma Rows33Ok(rest: seq<Opcode>)
    requires Run(rest, 0x7C00_03D7)
    ensures Run(Prepend(Rows33(), rest), 0x7C00_03B8)
  {
    PrependRun(Rows33(), 0x7C00_03B8, 0x7C00_03D7, rest);
  }

  function Rows34(): List<Row> {
    Cons(XO(31, 491, 0, 1, L5(rD, rA, rB, OE, Rc), "divw."),
    Cons(X(31, 512, 0, L1(crfD), "mcrxr", false),
    Cons(XO(31, 8, 1, 0, L5(rD, rA, rB, OE, Rc), "subfco"), Nil)))
  }

  lemma Rows34Ok(rest: seq<Opcode>)
    requires Run(rest, 0x7C00_0411)
    ensures Run(Prepend(Rows34(), rest), 0x7C00_03D7)
  {
    PrependRun(Rows34(), 0x7C00_03D7, 0x7C00_0411, rest);
  }

  function Rows35(): List<Row> {
    Cons(XO(31, 8, 1, 1, L5(rD, rA, rB, OE, Rc), "subfco."),
    Cons(XO(31, 10, 1, 0, L5(rD, rA, rB, OE, Rc), "addco"), Nil))
  }

  lemma Rows35Ok(rest: seq<Opcode>)
    requires Run(rest, 0x7C00_0415)
    ensures Run(Prepend(Rows35(), rest), 0x7C00_0411)
  {
    PrependRun(Rows35(), 0x7C00_0411, 0x7C00_0415, rest);
  }

  function Rows36(): List<Row> {
    Cons(XO(31, 10, 1, 1, L5(rD, rA, rB, OE, Rc), "addco."),
    Cons(X(31, 533, 0, L3(rD, rA, rB), "lswx", true),
    Cons(X(31, 534, 0, L3(rD, rA, rB), "lwbrx", true),
    Cons(X(31, 536, 0, L4(rA, rS, rB, Rc), "srw", false), Nil))))
  }

  lemma Rows36Ok(rest: seq<Opcode>)
    requires Run(rest, 0x7C00_0431)
    ensures Run(Prepend(Rows36(), rest), 0x7C00_0415)
  {
    PrependRun(Rows36(), 0x7C00_0415, 0x7C00_0431, rest);
  }

  function Rows37(): List<Row> {
    Cons(X(31, 536, 1, L4(rA, rS, rB, Rc), "srw.", false),
    Cons(XO(31, 40, 1, 0, L5(rD, rA, rB, OE, Rc), "subfo"),
    Cons(XO(31, 40, 1, 1, L5(rD, rA, rB, OE, Rc), "subfo."),
    Cons(X(31, 566, 0, Nil, "tlbsync", false), Nil))))
  }

  lemma Rows37Ok(rest: seq<Opcode>)
    requires Run(rest, 0x7C00_04A6)
    ensures Run(Prepend(Rows37(), rest), 0x7C00_0431)
  {
    PrependRun(Rows37(), 0x7C00_0431, 0x7C00_04A6, rest);
  }

  function Rows38(): List<Row> {
    Cons(X(31, 595, 0, L2(rD, SR), "mfsr", false),
    Cons(X(31, 597, 0, L3(rD, rA, NB), "lswi", true),
    Cons(X(31, 598, 0, Nil, "sync", false),
    Cons(XO(31, 104, 1, 0, L4(rD, rA, OE, Rc), "nego"),
    Cons(XO(31, 104, 1, 1, L4(rD, rA, OE, Rc), "nego."), Nil)))))
  }

  lemma Rows38Ok(rest: seq<Opcode>)
    requires Run(rest, 0x7C00_0510)
    ensures Run(Prepend(Rows38(), rest), 0x7C00_04A6)
  {
    PrependRun(Rows38(), 0x7C00_04A6, 0x7C00_0510, rest);
  }

  function Rows39(): List<Row> {
    Cons(XO(31, 136, 1, 0, L5(rD, rA, rB, OE, Rc), "subfeo"),
    Cons(XO(31, 136, 1, 1, L5(rD, rA, rB, OE, Rc), "subfeo."), Nil))
  }

  lemma Rows39Ok(rest: seq<Opcode>)
    requires Run(rest, 0x7C00_0514)
    ensures Run(Prepend(Rows39(), rest), 0x7C00_0510)
  {
    PrependRun(Rows39(), 0x7C00_0510, 0x7C00_0514, rest);
  }

  function Rows40(): List<Row> {
    Cons(XO(31, 138, 1, 0, L5(rD, rA, rB, OE, Rc), "addeo"),
    Cons(XO(31, 138, 1, 1, L5(rD, rA, rB, OE, Rc), "addeo."),
    Cons(X(31, 659, 0, L2(rD, rB), "mfsrin", false),
    Cons(X(31, 661, 0, L3(rS, rA, rB), "stswx", true), Nil))))
  }

  lemma Rows40Ok(rest: seq<Opcode>)
    requires Run(rest, 0x7C00_052C)
    ensures Run(Prepend(Rows40(), rest), 0x7C00_0514)
  {
    PrependRun(Rows40(), 0x7C00_0514, 0x7C00_052C, rest);
  }

  function Rows41(): List<Row> {
    Cons(X(31, 662, 0, L3(rS, rA, rB), "stwbrx", true),
    Cons(XO(31, 200, 1, 0, L4(rD, rA, OE, Rc), "subfzeo"),
    Cons(XO(31, 200, 1, 1, L4(rD, rA, OE, Rc), "subfzeo."),
    Cons(XO(31, 202, 1, 0, L4(rD, rA, OE, Rc), "addzeo"), Nil))))
  }

  lemma Rows41Ok(rest: seq<Opcode>)
    requires Run(rest, 0x7C00_0595)
    ensures Run(Prepend(Rows41(), rest), 0x7C00_052C)
  {
    PrependRun(Rows41(), 0x7C00_052C, 0x7C00_0595, rest);
  }

  function Rows42(): List<Row> {
    Cons(XO(31, 202, 1, 1, L4(rD, rA, OE, Rc), "addzeo."),
    Cons(X(31, 725, 0, L3(rS, rA, NB), "stswi", true),
    Cons(XO(31, 232, 1, 0, L4(rD, rA, OE, Rc), "subfmeo"),
    Cons(XO(31, 232, 1, 1, L4(rD, rA, OE, Rc), "subfmeo."), Nil))))
  }

  lemma Rows42Ok(rest: seq<Opcode>)
    requires Run(rest, 0x7C00_05D4)
    ensures Run(Prepend(Rows42(), rest), 0x7C00_0595)
  {
    PrependRun(Rows42(), 0x7C00_0595, 0x7C00_05D4, rest);
  }

  function Rows43(): List<Row> {
    Cons(XO(31, 234, 1, 0, L4(rD, rA, OE, Rc), "addmeo"),
    Cons(XO(31, 234, 1, 1, L4(rD, rA, OE, Rc), "addmeo."),
    Cons(XO(31, 235, 1, 0, L5(rD, rA, rB, OE, Rc), "mullwo"), Nil)))
  }

  lemma Rows43Ok(rest: seq<Opcode>)
    requires Run(rest, 0x7C00_05D7)
    ensures Run(Prepend(Rows43(), rest), 0x7C00_05D4)
  {
    PrependRun(Rows43(), 0x7C00_05D4, 0x7C00_05D7, rest);
  }

  function Rows44(): List<Row> {
    Cons(XO(31, 235, 1, 1, L5(rD, rA, rB, OE, Rc), "mullwo."),
    Cons(XO(31, 266, 1, 0, L5(rD, rA, rB, OE, Rc), "addo"), Nil))
  }

  lemma Rows44Ok(rest: seq<Opcode>)
    requires Run(rest, 0x7C00_0615)
    ensures Run(Prepend(Rows44(), rest), 0x7C00_05D7)
  {
    PrependRun(Rows44(), 0x7C00_05D7, 0x7C00_0615, rest);
  }

  function Rows45(): List<Row> {
    Cons(XO(31, 266, 1, 1, L5(rD, rA, rB, OE, Rc), "addo."),
    Cons(X(31, 790, 0, L3(rD, rA, rB), "lhbrx", true),
    Cons(X(31, 792, 0, L4(rA, rS, rB, Rc), "sraw", false),
    Cons(X(31, 792, 1, L4(rA, rS, rB, Rc), "sraw.", false), Nil))))
  }

  lemma Rows45Ok(rest: seq<Opcode>)
    requires Run(rest, 0x7C00_0670)
    ensures Run(Prepend(Rows45(), rest), 0x7C00_0615)
  {
    PrependRun(Rows45(), 0x7C00_0615, 0x7C00_0670, rest);
  }

  function Rows46(): List<Row> {
    Cons(X(31, 824, 0, L4(rA, rS, SH, Rc), "srawi", false),
    Cons(X(31, 824, 1, L4(rA, rS, SH, Rc), "srawi.", false),
    Cons(X(31, 854, 0, Nil, "eieio", false),
    Cons(X(31, 918, 0, L3(rS, rA, rB), "sthbrx", true),
    Cons(X(31, 922, 0, L3(rA, rS, Rc), "extsh", false), Nil)))))
  }

  lemma Rows46Ok(rest: seq<Opcode>)
    requires Run(rest, 0x7C00_0735)
    ensures Run(Prepend(Rows46(), rest), 0x7C00_0670)
  {
    PrependRun(Rows46(), 0x7C00_0670, 0x7C00_0735, rest);
  }

  function Rows47(): List<Row> {
    Cons(X(31, 922, 1, L3(rA, rS, Rc), "extsh.", false),
    Cons(X(31, 954, 0, L3(rA, rS, Rc), "extsb", false),
    Cons(X(31, 954, 1, L3(rA, rS, Rc), "extsb.", false),
    Cons(XO(31, 459, 1, 0, L5(rD, rA, rB, OE, Rc), "divwuo"), Nil))))
  }

  lemma Rows47Ok(rest: seq<Opcode>)
    requires Run(rest, 0x7C00_0797)
    ensures Run(Prepend(Rows47(), rest), 0x7C00_0735)
  {
    PrependRun(Rows47(), 0x7C00_0735, 0x7C00_0797, rest);
  }

  function Rows48(): List<Row> {
    Cons(XO(31, 459, 1, 1, L5(rD, rA, rB, OE, Rc), "divwuo."),
    Cons(X(31, 978, 0, L1(rB), "tlbld", false),
    Cons(X(31, 982, 0, L2(rA, rB), "icbi", true),
    Cons(XO(31, 491, 1, 0, L5(rD, rA, rB, OE, Rc), "divwo"), Nil))))
  }

  lemma Rows48Ok(rest: seq<Opcode>)
    requires Run(rest, 0x7C00_07D7)
    ensures Run(Prepend(Rows48(), rest), 0x7C00_0797)
  {
    PrependRun(Rows48(), 0x7C00_0797, 0x7C00_07D7, rest);
  }

  function Rows49(): List<Row> {
    Cons(XO(31, 491, 1, 1, L5(rD, rA, rB, OE, Rc), "divwo."),
    Cons(X(31, 1010, 0, L1(rB), "tlbli", false),
    Cons(X(31, 1014, 0, L2(rA, rB), "dcbz", true),
    Cons(D(32, L3(rD, Disp, rA), "lwz", true),
    Cons(D(33, L3(rD, Disp, rA), "lwzu", false), Nil)))))
  }

  lemma Rows49Ok(rest: seq<Opcode>)
    requires Run(rest, 0x8800_0000)
    ensures Run(Prepend(Rows49(), rest), 0x7C00_07D7)
  {
    PrependRun(Rows49(), 0x7C00_07D7, 0x8800_0000, rest);
  }

  function Rows50(): List<Row> {
    Cons(D(34, L3(rD, Disp, rA), "lbz", true),
    Cons(D(35, L3(rD, Disp, rA), "lbzu", false),
    Cons(D(36, L3(rS, Disp, rA), "stw", true),
    Cons(D(37, L3(rS, Disp, rA), "stwu", false),
    Cons(D(38, L3(rS, Disp, rA), "stb", true), Nil)))))
  }

  lemma Rows50Ok(rest: seq<Opcode>)
    requires Run(rest, 0x9C00_0000)
    ensures Run(Prepend(Rows50(), rest), 0x8800_0000)
  {
    PrependRun(Rows50(), 0x8800_0000, 0x9C00_0000, rest);
  }

  function Rows51(): List<Row> {
    Cons(D(39, L3(rS, Disp, rA), "stbu", false),
    Cons(D(40, L3(rD, Disp, rA), "lhz", true),
    Cons(D(41, L3(rD, Disp, rA), "lhzu", false),
    Cons(D(42, L3(rD, Disp, rA), "lha", true),
    Cons(D(43, L3(rD, Disp, rA), "lhau", false), Nil)))))
  }

  lemma Rows51Ok(rest: seq<Opcode>)
    requires Run(rest, 0xB000_0000)
    ensures Run(Prepend(Rows51(), rest), 0x9C00_0000)
  {
    PrependRun(Rows51(), 0x9C00_0000, 0xB000_0000, rest);
  }

  function Rows52(): List<Row> {
    Cons(D(44, L3(rS, Disp, rA), "sth", true),
    Cons(D(45, L3(rS, Disp, rA), "sthu", false),
    Cons(D(46, L3(rD, Disp, rA), "lmw", true),
    Cons(D(47, L3(rS, Disp, rA), "stmw", true), Nil))))
  }

  lemma Rows52Ok(rest: seq<Opcode>)
    requires Run(rest, 0x1_0000_0000)
    ensures Run(Prepend(Rows52(), rest), 0xB000_0000)
  {
    PrependRun(Rows52(), 0xB000_0000, 0x1_0000_0000, rest);
  }

  // ----- all rows -----

  function Part1(rest: seq<Opcode>): seq<Opcode> {
    Prepend(Rows1(), Prepend(Rows2(), Prepend(Rows3(), rest)))
  }

  lemma Part1Ok(rest: seq<Opcode>)
    requires Run(rest, 0x4800_0001)
    ensures Run(Part1(rest), 0x0C00_0000) && Within(rest, Part1(rest))
  {
    Rows3Ok(rest);
    PrependKeeps(Rows3(), rest);
    var from3 := Prepend(Rows3(), rest);
    Rows2Ok(from3);
    PrependKeeps(Rows2(), from3);
    var from2 := Prepend(Rows2(), from3);
    Rows1Ok(from2);
    PrependKeeps(Rows1(), from2);
  }

  function Part2(rest: seq<Opcode>): seq<Opcode> {
    Prepend(Rows4(), Prepend(Rows5(), Prepend(Rows6(), rest)))
  }

  lemma Part2Ok(rest: seq<Opcode>)
    requires Run(rest, 0x4C00_0382)
    ensures Run(Part2(rest), 0x4800_0001) && Within(rest, Part2(rest))
  {
    Rows6Ok(rest);
    PrependKeeps(Rows6(), rest);
    var from6 := Prepend(Rows6(), rest);
    Rows5Ok(from6);
    PrependKeeps(Rows5(), from6);
    var from5 := Prepend(Rows5(), from6);
    Rows4Ok(from5);
    PrependKeeps(Rows4(), from5);
  }

  function Part3(rest: seq<Opcode>): seq<Opcode> {
    Prepend(Rows7(), Prepend(Rows8(), Prepend(Rows9(), rest)))
  }

  lemma Part3Ok(rest: seq<Opcode>)
    requires Run(rest, 0x5C00_0001)
    ensures Run(Part3(rest), 0x4C00_0382) && Within(rest, Part3(rest))
  {
    Rows9Ok(rest);
    PrependKeeps(Rows9(), rest);
    var from9 := Prepend(Rows9(), rest);
    Rows8Ok(from9);
    PrependKeeps(Rows8(), from9);
    var from8 := Prepend(Rows8(), from9);
    Rows7Ok(from8);
    PrependKeeps(Rows7(), from8);
  }

  function Part4(rest: seq<Opcode>): seq<Opcode> {
    Prepend(Rows10(), Prepend(Rows11(), Prepend(Rows12(), rest)))
  }

  lemma Part4Ok(rest: seq<Opcode>)
    requires Run(rest, 0x7C00_0014)
    ensures Run(Part4(rest), 0x5C00_0001) && Within(rest, Part4(rest))
  {
    Rows12Ok(rest);
    PrependKeeps(Rows12(), rest);
    var from12 := Prepend(Rows12(), rest);
    Rows11Ok(from12);
    PrependKeeps(Rows11(), from12);
    var from11 := Prepend(Rows11(), from12);
    Rows10Ok(from11);
    PrependKeeps(Rows10(), from11);
  }

  function Part5(rest: seq<Opcode>): seq<Opcode> {
    Prepend(Rows13(), Prepend(Rows14(), Prepend(Rows15(), rest)))
  }

  lemma Part5Ok(rest: seq<Opcode>)
    requires Run(rest, 0x7C00_0039)
    ensures Run(Part5(rest), 0x7C00_0014) && Within(rest, Part5(rest))
  {
    Rows15Ok(rest);
    PrependKeeps(Rows15(), rest);
    var from15 := Prepend(Rows15(), rest);
    Rows14Ok(from15);
    PrependKeeps(Rows14(), from15);
    var from14 := Prepend(Rows14(), from15);
    Rows13Ok(from14);
    PrependKeeps(Rows13(), from14);
  }

  function Part6(rest: seq<Opcode>): seq<Opcode> {
    Prepend(Rows16(), Prepend(Rows17(), Prepend(Rows18(), rest)))
  }

  lemma Part6Ok(rest: seq<Opcode>)
    requires Run(rest, 0x7C00_00AE)
    ensures Run(Part6(rest), 0x7C00_0039) && Within(rest, Part6(rest))
  {
    Rows18Ok(rest);
    PrependKeeps(Rows18(), rest);
    var from18 := Prepend(Rows18(), rest);
    Rows17Ok(from18);
    PrependKeeps(Rows17(), from18);
    var from17 := Prepend(Rows17(), from18);
    Rows16Ok(from17);
    PrependKeeps(Rows16(), from17);
  }

  function Part7(rest: seq<Opcode>): seq<Opcode> {
    Prepend(Rows19(), Prepend(Rows20(), Prepend(Rows21(), rest)))
  }

  lemma Part7Ok(rest: seq<Opcode>)
    requires Run(rest, 0x7C00_0115)
    ensures Run(Part7(rest), 0x7C00_00AE) && Within(rest, Part7(rest))
  {
    Rows21Ok(rest);
    PrependKeeps(Rows21(), rest);
    var from21 := Prepend(Rows21(), rest);
    Rows20Ok(from21);
    PrependKeeps(Rows20(), from21);
    var from20 := Prepend(Rows20(), from21);
    Rows19Ok(from20);
    PrependKeeps(Rows19(), from20);
  }

  function Part8(rest: seq<Opcode>): seq<Opcode> {
    Prepend(Rows22(), Prepend(Rows23(), Prepend(Rows24(), rest)))
  }

  lemma Part8Ok(rest: seq<Opcode>)
    requires Run(rest, 0x7C00_01D4)
    ensures Run(Part8(rest), 0x7C00_0115) && Within(rest, Part8(rest))
  {
    Rows24Ok(rest);
    PrependKeeps(Rows24(), rest);
    var from24 := Prepend(Rows24(), rest);
    Rows23Ok(from24);
    PrependKeeps(Rows23(), from24);
    var from23 := Prepend(Rows23(), from24);
    Rows22Ok(from23);
    PrependKeeps(Rows22(), from23);
  }

  function Part9(rest: seq<Opcode>): seq<Opcode> {
    Prepend(Rows25(), Prepend(Rows26(), Prepend(Rows27(), rest)))
  }

  lemma Part9Ok(rest: seq<Opcode>)
    requires Run(rest, 0x7C00_0238)
    ensures Run(Part9(rest), 0x7C00_01D4) && Within(rest, Part9(rest))
  {
    Rows27Ok(rest);
    PrependKeeps(Rows27(), rest);
    var from27 := Prepend(Rows27(), rest);
    Rows26Ok(from27);
    PrependKeeps(Rows26(), from27);
    var from26 := Prepend(Rows26(), from27);
    Rows25Ok(from26);
    PrependKeeps(Rows25(), from26);
  }

  function Part10(rest: seq<Opcode>): seq<Opcode> {
    Prepend(Rows28(), Prepend(Rows29(), Prepend(Rows30(), rest)))
  }

  lemma Part10Ok(rest: seq<Opcode>)
    requires Run(rest, 0x7C00_036C)
    ensures Run(Part10(rest), 0x7C00_0238) && Within(rest, Part10(rest))
  {
    Rows30Ok(rest);
    PrependKeeps(Rows30(), rest);
    var from30 := Prepend(Rows30(), rest);
    Rows29Ok(from30);
    PrependKeeps(Rows29(), from30);
    var from29 := Prepend(Rows29(), from30);
    Rows28Ok(from29);
    PrependKeeps(Rows28(), from29);
  }

  function Part11(rest: seq<Opcode>): seq<Opcode> {
    Prepend(Rows31(), Prepend(Rows32(), Prepend(Rows33(), rest)))
  }

  lemma Part11Ok(rest: seq<Opcode>)
    requires Run(rest, 0x7C00_03D7)
    ensures Run(Part11(rest), 0x7C00_036C) && Within(rest, Part11(rest))
  {
    Rows33Ok(rest);
    PrependKeeps(Rows33(), rest);
    var from33 := Prepend(Rows33(), rest);
    Rows32Ok(from33);
    PrependKeeps(Rows32(), from33);
    var from32 := Prepend(Rows32(), from33);
    Rows31Ok(from32);
    PrependKeeps(Rows31(), from32);
  }

  function Part12(rest: seq<Opcode>): seq<Opcode> {
    Prepend(Rows34(), Prepend(Rows35(), Prepend(Rows36(), rest)))
  }

  lemma Part12Ok(rest: seq<Opcode>)
    requires Run(rest, 0x7C00_0431)
    ensures Run(Part12(rest), 0x7C00_03D7) && Within(rest, Part12(rest))
  {
    Rows36Ok(rest);
    PrependKeeps(Rows36(), rest);
    var from36 := Prepend(Rows36(), rest);
    Rows35Ok(from36);
    PrependKeeps(Rows35(), from36);
    var from35 := Prepend(Rows35(), from36);
    Rows34Ok(from35);
    PrependKeeps(Rows34(), from35);
  }

  function Part13(rest: seq<Opcode>): seq<Opcode> {
    Prepend(Rows37(), Prepend(Rows38(), Prepend(Rows39(), rest)))
  }

  lemma Part13Ok(rest: seq<Opcode>)
    requires Run(rest, 0x7C00_0514)
    ensures Run(Part13(rest), 0x7C00_0431) && Within(rest, Part13(rest))
  {
    Rows39Ok(rest);
    PrependKeeps(Rows39(), rest);
    var from39 := Prepend(Rows39(), rest);
    Rows38Ok(from39);
    PrependKeeps(Rows38(), from39);
    var from38 := Prepend(Rows38(), from39);
    Rows37Ok(from38);
    PrependKeeps(Rows37(), from38);
  }

  function Part14(rest: seq<Opcode>): seq<Opcode> {
    Prepend(Rows40(), Prepend(Rows41(), Prepend(Rows42(), rest)))
  }

  lemma Part14Ok(rest: seq<Opcode>)
    requires Run(rest, 0x7C00_05D4)
    ensures Run(Part14(rest), 0x7C00_0514) && Within(rest, Part14(rest))
  {
    Rows42Ok(rest);
    PrependKeeps(Rows42(), rest);
    var from42 := Prepend(Rows42(), rest);
    Rows41Ok(from42);
    PrependKeeps(Rows41(), from42);
    var from41 := Prepend(Rows41(), from42);
    Rows40Ok(from41);
    PrependKeeps(Rows40(), from41);
  }

  function Part15(rest: seq<Opcode>): seq<Opcode> {
    Prepend(Rows43(), Prepend(Rows44(), Prepend(Rows45(), rest)))
  }

  lemma Part15Ok(rest: seq<Opcode>)
    requires Run(rest, 0x7C00_0670)
    ensures Run(Part15(rest), 0x7C00_05D4) && Within(rest, Part15(rest))
  {
    Rows45Ok(rest);
    PrependKeeps(Rows45(), rest);
    var from45 := Prepend(Rows45(), rest);
    Rows44Ok(from45);
    PrependKeeps(Rows44(), from45);
    var from44 := Prepend(Rows44(), from45);
    Rows43Ok(from44);
    PrependKeeps(Rows43(), from44);
  }

  function Part16(rest: seq<Opcode>): seq<Opcode> {
    Prepend(Rows46(), Prepend(Rows47(), Prepend(Rows48(), rest)))
  }

  lemma Part16Ok(rest: seq<Opcode>)
    requires Run(rest, 0x7C00_07D7)
    ensures Run(Part16(rest), 0x7C00_0670) && Within(rest, Part16(rest))
  {
    Rows48Ok(rest);
    PrependKeeps(Rows48(), rest);
    var from48 := Prepend(Rows48(), rest);
    Rows47Ok(from48);
    PrependKeeps(Rows47(), from48);
    var from47 := Prepend(Rows47(), from48);
    Rows46Ok(from47);
    PrependKeeps(Rows46(), from47);
  }

  function Part17(rest: seq<Opcode>): seq<Opcode> {
    Prepend(Rows49(), Prepend(Rows50(), Prepend(Rows51(), rest)))
  }

  lemma Part17Ok(rest: seq<Opcode>)
    requires Run(rest, 0xB000_0000)
    ensures Run(Part17(rest), 0x7C00_07D7) && Within(rest, Part17(rest))
  {
    Rows51Ok(rest);
    PrependKeeps(Rows51(), rest);
    var from51 := Prepend(Rows51(), rest);
    Rows50Ok(from51);
    PrependKeeps(Rows50(), from51);
    var from50 := Prepend(Rows50(), from51);
    Rows49Ok(from50);
    PrependKeeps(Rows49(), from50);
  }

  function Part18(rest: seq<Opcode>): seq<Opcode> {
    Prepend(Rows52(), rest)
  }

  lemma Part18Ok(rest: seq<Opcode>)
    requires Run(rest, 0x1_0000_0000)
    ensures Run(Part18(rest), 0xB000_0000) && Within(rest, Part18(rest))
  {
    Rows52Ok(rest);
    PrependKeeps(Rows52(), rest);
  }

  function OpcodeRows(): seq<Opcode> {
    Part1(Part2(Part3(Part4(Part5(Part6(Part7(Part8(Part9(Part10(Part11(Part12(Part13(
    Part14(Part15(Part16(Part17(Part18([]))))))))))))))))))
  }

  /** Every part of the table is in it, with some rows after it. */
  ghost predicate HasParts(rows: seq<Opcode>) {
    && (exists rest :: Within(Part1(rest), rows))
    && (exists rest :: Within(Part2(rest), rows))
    && (exists rest :: Within(Part3(rest), rows))
    && (exists rest :: Within(Part4(rest), rows))
    && (exists rest :: Within(Part5(rest), rows))
    && (exists rest :: Within(Part6(rest), rows))
    && (exists rest :: Within(Part7(rest), rows))
    && (exists rest :: Within(Part8(rest), rows))
    && (exists rest :: Within(Part9(rest), rows))
    && (exists rest :: Within(Part10(rest), rows))
    && (exists rest :: Within(Part11(rest), rows))
    && (exists rest :: Within(Part12(rest), rows))
    && (exists rest :: Within(Part13(rest), rows))
    && (exists rest :: Within(Part14(rest), rows))
    && (exists rest :: Within(Part15(rest), rows))
    && (exists rest :: Within(Part16(rest), rows))
    && (exists rest :: Within(Part17(rest), rows))
    && (exists rest :: Within(Part18(rest), rows))
  }

  /** All rows are good and in order, and every part of the table is in it. */
  lemma OpcodeRowsOk(none: seq<Opcode>)
    requires none == []
    ensures Run(OpcodeRows(), 0x0C00_0000) && HasParts(OpcodeRows())
  {
    Part18Ok(none);
    var part18 := Part18(none);
    Part17Ok(part18);
    var part17 := Part17(part18);
    Part16Ok(part17);
    var part16 := Part16(part17);
    Part15Ok(part16);
    var part15 := Part15(part16);
    Part14Ok(part15);
    var part14 := Part14(part15);
    Part13Ok(part14);
    var part13 := Part13(part14);
    Part12Ok(part13);
    var part12 := Part12(part13);
    Part11Ok(part12);
    var part11 := Part11(part12);
    Part10Ok(part11);
    var part10 := Part10(part11);
    Part9Ok(part10);
    var part9 := Part9(part10);
    Part8Ok(part9);
    var part8 := Part8(part9);
    Part7Ok(part8);
    var part7 := Part7(part8);
    Part6Ok(part7);
    var part6 := Part6(part7);
    Part5Ok(part6);
    var part5 := Part5(part6);
    Part4Ok(part5);
    var part4 := Part4(part5);
    Part3Ok(part4);
    var part3 := Part3(part4);
    Part2Ok(part3);
    var part2 := Part2(part3);
    Part1Ok(part2);
    var part1 := Part1(part2);
    assert part1 == OpcodeRows();
    WithinTrans(part2, part1, part1);
    WithinTrans(part3, part2, part1);
    WithinTrans(part4, part3, part1);
    WithinTrans(part5, part4, part1);
    WithinTrans(part6, part5, part1);
    WithinTrans(part7, part6, part1);
    WithinTrans(part8, part7, part1);
    WithinTrans(part9, part8, part1);
    WithinTrans(part10, part9, part1);
    WithinTrans(part11, part10, part1);
    WithinTrans(part12, part11, part1);
    WithinTrans(part13, part12, part1);
    WithinTrans(part14, part13, part1);
    WithinTrans(part15, part14, part1);
    WithinTrans(part16, part15, part1);
    WithinTrans(part17, part16, part1);
    WithinTrans(part18, part17, part1);
  }

  // ----- special registers -----

  function SpecialRegisters(): seq<SprInfo> {
    Sprs1() + Sprs2() + Sprs3() + Sprs4() + Sprs5() + Sprs6() + Sprs7()
  }

  function Sprs1(): seq<SprInfo> {
    [
      SprInfo(1, "XER"), SprInfo(8, "LR"), SprInfo(9, "CTR"), SprInfo(18, "DSISR"),
      SprInfo(19, "DAR"), SprInfo(22, "DEC"), SprInfo(26, "SRR0"), SprInfo(27, "SRR1"),
      SprInfo(80, "EIE"), SprInfo(81, "EID"), SprInfo(144, "CMPA"), SprInfo(145, "CMPB"),
      SprInfo(146, "CMPC"), SprInfo(147, "CMPD")
    ]
  }

  lemma Sprs1Ok()
    ensures AllCapitals(Sprs1())
  {
  }

  function Sprs2(): seq<SprInfo> {
    [
      SprInfo(148, "ICR"), SprInfo(149, "DER"), SprInfo(150, "COUNTA"), SprInfo(151, "COUNTB"),
      SprInfo(152, "CMPE"), SprInfo(153, "CMPF"), SprInfo(154, "CMPG"), SprInfo(155, "CMPH"),
      SprInfo(156, "LCTRL1"), SprInfo(157, "LCTRL2"), SprInfo(158, "ICTRL"), SprInfo(159, "BAR"),
      SprInfo(256, "USPRG0"), SprInfo(260, "SPRG4_RO")
    ]
  }

  lemma Sprs2Ok()
    ensures AllCapitals(Sprs2())
  {
  }

  function Sprs3(): seq<SprInfo> {
    [
      SprInfo(261, "SPRG5_RO"), SprInfo(262, "SPRG6_RO"), SprInfo(263, "SPRG7_RO"), SprInfo(272, "SPRG0"),
      SprInfo(273, "SPRG1"), SprInfo(274, "SPRG2"), SprInfo(275, "SPRG3"), SprInfo(276, "SPRG4"),
      SprInfo(277, "SPRG5"), SprInfo(278, "SPRG6"), SprInfo(279, "SPRG7"), SprInfo(282, "EAR"),
      SprInfo(284, "TBL"), SprInfo(285, "TBU")
    ]
  }

  lemma Sprs3Ok()
    ensures AllCapitals(Sprs3())
  {
  }

  function Sprs4(): seq<SprInfo> {
    [
      SprInfo(560, "IC_CST"), SprInfo(561, "IC_ADR"), SprInfo(562, "IC_DAT"), SprInfo(568, "DC_CST"),
      SprInfo(569, "DC_ADR"), SprInfo(570, "DC_DAT"), SprInfo(630, "DPDR"), SprInfo(638, "IMMR"),
      SprInfo(784, "MI_CTR"), SprInfo(786, "MI_AP"), SprInfo(787, "MI_EPN"), SprInfo(789, "MI_TWC"),
      SprInfo(790, "MI_RPN"), SprInfo(792, "MD_CTR")
    ]
  }

  lemma Sprs4Ok()
    ensures AllCapitals(Sprs4())
  {
  }

  function Sprs5(): seq<SprInfo> {
    [
      SprInfo(793, "M_CASID"), SprInfo(794, "MD_AP"), SprInfo(795, "MD_EPN"), SprInfo(796, "M_TWB"),
      SprInfo(797, "MD_TWC"), SprInfo(798, "MD_RPN"), SprInfo(799, "M_TW"), SprInfo(816, "MI_DBCAM"),
      SprInfo(817, "MI_DBRAM0"), SprInfo(818, "MI_DBRAM1"), SprInfo(824, "MD_DBCAM"), SprInfo(825, "MD_DBRAM0"),
      SprInfo(826, "MD_DBRAM1"), SprInfo(944, "ZPR")
    ]
  }

  lemma Sprs5Ok()
    ensures AllCapitals(Sprs5())
  {
  }

  function Sprs6(): seq<SprInfo> {
    [
      SprInfo(945, "PID"), SprInfo(947, "CCR0"), SprInfo(948, "IAC3"), SprInfo(949, "IAC4"),
      SprInfo(950, "DVC1"), SprInfo(951, "DVC2"), SprInfo(953, "SGR"), SprInfo(954, "DCWR"),
      SprInfo(955, "SLER"), SprInfo(956, "SU0R"), SprInfo(957, "DBCR1"), SprInfo(979, "ICDBDR"),
      SprInfo(980, "ESR"), SprInfo(981, "DEAR")
    ]
  }

  lemma Sprs6Ok()
    ensures AllCapitals(Sprs6())
  {
  }

  function Sprs7(): seq<SprInfo> {
    [
      SprInfo(982, "EVPR"), SprInfo(984, "TSR"), SprInfo(986, "TCR"), SprInfo(987, "PIT"),
      SprInfo(990, "SRR2"), SprInfo(991, "SRR3"), SprInfo(1008, "DBSR"), SprInfo(1010, "DBCR0"),
      SprInfo(1012, "IAC1"), SprInfo(1013, "IAC2"), SprInfo(1014, "DAC1"), SprInfo(1015, "DAC2"),
      SprInfo(1018, "DCCR"), SprInfo(1019, "ICCR")
    ]
  }

  lemma Sprs7Ok()
    ensures AllCapitals(Sprs7())
  {
  }

}
