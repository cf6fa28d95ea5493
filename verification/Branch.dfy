/**
  `find_next_address`: where the instruction at the program counter goes next, against the branch
  definition in section 2.4 of Power ISA Version 2.06 Book I, in 32-bit mode.
 */
module Branch {
  import opened Wrappers
  import opened Words
  import opened Text
  import opened Tables
  import opened Assembler
  import opened Disassembler

  // ----- branch rows of the table -----

  const AA := Operand(1, 1, 1, Plain, true)
  const BD := Operand(2, 14, 2, Addr, false)
  const BI := Operand(3, 5, 16, Plain, false)
  const BO := Operand(4, 5, 21, Plain, false)
  const LI := Operand(14, 24, 2, Addr, false)
  const LK := Operand(15, 1, 0, Plain, true)

  /** I_MASK and B_MASK keep the primary opcode, AA and LK; XL_MASK also the extended opcode. */
  const I_MASK: Word := 0xFC00_0003
  const XL_MASK: Word := 0xFC00_07FF

  /** The rows for branch instructions have the masks and operands of their instruction forms. */
  predicate BranchRowOk(e: Opcode) {
    && (Primary(e.opcode) == 16 ==>
          e.mask == I_MASK && e.fields == [BO, BI, BD, AA, LK] && e.relative == (e.opcode % 4 < 2))
    && (Primary(e.opcode) == 18 ==>
          e.mask == I_MASK && e.fields == [LI, AA, LK] && e.relative == (e.opcode % 4 < 2))
    && (Primary(e.opcode) == 19 ==>
          e.mask == XL_MASK && (e.opcode % 2048 / 2 in {16, 528} ==> e.fields == [BO, BI, LK]))
  }

  predicate BranchRows(t: Table) {
    forall i :: 0 <= i < |t.opcodes| ==> BranchRowOk(t.opcodes[i])
  }

  datatype Regs = Regs(nip: Word, ctr: Word, ccr: Word, link: Word)

  // ----- the architecture -----

  /** An instruction word as the branch facility sees it. */
  datatype Form =
    | Sequential
    | Always(li: nat, aa: bool, lk: bool)
    | Conditional(bo: nat, bi: nat, bd: nat, aa: bool, lk: bool)
    | ToLink(bo: nat, bi: nat, lk: bool)
    | ToCount(bo: nat, bi: nat, lk: bool)

  predicate FormOk(f: Form) {
    f.Sequential? || f.Always? || (f.bo < 32 && f.bi < 32)
  }

  function FormOf(w: Word): (f: Form)
    ensures FormOk(f)
  {
    var primary, xo := w / 0x400_0000, w / 2 % 1024;
    var bo, bi := w / 0x20_0000 % 32, w / 0x1_0000 % 32;
    var aa, lk := w / 2 % 2 == 1, w % 2 == 1;
    if primary == 18 then Always(w / 4 % 0x100_0000, aa, lk)
    else if primary == 16 then Conditional(bo, bi, w / 4 % 0x4000, aa, lk)
    else if primary == 19 && xo == 16 then ToLink(bo, bi, lk)
    else if primary == 19 && xo == 528 then ToCount(bo, bi, lk)
    else Sequential
  }

  function SignExtend(x: int, half: int): int {
    if x >= half then x - 2 * half else x
  }

  /** A field extended with its sign and two zero bits; `half` is half the field's range. */
  function Displacement(x: int, half: int): Word {
    Wrap(4 * SignExtend(x, half))
  }

  /** Bit `n` of a BO field, counted from the left as the architecture does. */
  predicate BoBit(bo: nat, n: nat)
    requires n <= 4
  {
    var p := match n case 0 => 16 case 1 => 8 case 2 => 4 case 3 => 2 case _ => 1;
    bo / p % 2 == 1
  }

  predicate CountOk(bo: nat, ctr: Word) {
    BoBit(bo, 2) || ((Wrap(ctr - 1) != 0) != BoBit(bo, 3))
  }

  predicate ConditionOk(bo: nat, bi: nat, cr: Word)
    requires bi < 32
  {
    BoBit(bo, 0) || Bit(cr, 31 - bi) == BoBit(bo, 1)
  }

  predicate Taken(f: Form, r: Regs)
    requires FormOk(f)
  {
    match f
    case Sequential => false
    case Always(_, _, _) => true
    case Conditional(bo, bi, _, _, _) => CountOk(bo, r.ctr) && ConditionOk(bo, bi, r.ccr)
    case ToLink(bo, bi, _) => CountOk(bo, r.ctr) && ConditionOk(bo, bi, r.ccr)
    case ToCount(bo, bi, _) => ConditionOk(bo, bi, r.ccr)
  }

  function Aligned(x: Word): Word {
    x - x % 4
  }

  /** The target address of a branch at `cia`. */
  function Target(f: Form, cia: Word, r: Regs): Word {
    match f
    case Sequential => Following(cia)
    case Always(li, aa, _) => Wrap(Displacement(li, 0x80_0000) + if aa then 0 else cia)
    case Conditional(_, _, bd, aa, _) => Wrap(Displacement(bd, 0x2000) + if aa then 0 else cia)
    case ToLink(_, _, _) => Aligned(r.link)
    case ToCount(_, _, _) => Aligned(r.ctr)
  }

  /** The next instruction address. */
  function Nia(f: Form, cia: Word, r: Regs): Word
    requires FormOk(f)
  {
    if Taken(f, r) then Target(f, cia, r) else Following(cia)
  }

  // ----- what find_next_address computes -----

  /** The BO values that the switch knows: those whose "z" bits are zero. */
  predicate Handled(bo: nat) {
    bo / 2 in {0, 1, 2, 4, 5, 6, 8, 9, 10}
  }

  predicate PredictedTaken(f: Form, r: Regs)
    requires FormOk(f)
  {
    f.Always? || (!f.Sequential? && Handled(f.bo) && CountOk(f.bo, r.ctr) && ConditionOk(f.bo, f.bi, r.ccr))
  }

  /** Link and count registers are used as they are. */
  function PredictedTarget(f: Form, pc: Word, r: Regs): Word {
    if f.ToLink? then r.link else if f.ToCount? then r.ctr else Target(f, pc, r)
  }

  function Predicted(f: Form, pc: Word, r: Regs, stepOver: bool): Word
    requires FormOk(f)
  {
    if PredictedTaken(f, r) && !(stepOver && f.lk) then PredictedTarget(f, pc, r) else Following(pc)
  }

  function NextAddress(t: Table, mem: Word -> Word, r: Regs, stepOver: bool): Option<Word> {
    var pc := Aligned(r.nip);
    if FirstMatch(t.opcodes, mem(pc)).None? then None
    else Some(Predicted(FormOf(mem(pc)), pc, r, stepOver))
  }

  const B_OPCODE: int := 0x4000_0000
  const I_OPCODE: int := 0x4800_0000
  const BCLR_OPCODE: int := 0x4C00_0020
  const BCCTR_OPCODE: int := 0x4C00_0420

  lemma MaskedArithmetic(w: Word, m: Word, n: nat)
    requires n <= 11 && m == Or(Ones(n), FieldBits(6, 26))
    ensures And(w, m) == w / 0x400_0000 * 0x400_0000 + w % Shl(1, n)
  {
    var p, low := w / 0x400_0000, w % Shl(1, n);
    assert And(w, m) == Or(And(w, Ones(n)), And(w, FieldBits(6, 26))) by {
      AndOrDistribute(w, Ones(n), FieldBits(6, 26));
    }
    assert And(w, Ones(n)) == low by { AndOnes(w, n); }
    assert And(w, FieldBits(6, 26)) == Shl(p, 26) by { TopField(w); }
    assert Shl(p, 26) == p * 0x400_0000 by { Powers(); ShlMultiplies(p, 26); }
    assert low < Shl(1, 26) by { PowersGrow(n, 26); }
    OrHigh(low, p, 26);
  }

  lemma TopField(w: Word)
    ensures And(w, FieldBits(6, 26)) == Shl(w / 0x400_0000, 26)
  {
    var p := w / 0x400_0000;
    assert Extract(w, 6, 26) == p by {
      ExtractArithmetic(w, 6, 26);
      Powers();
      assert Shl(1, 6) == 64;
    }
    assert And(p, Ones(6)) == p by {
      assert Ones(6) == 63;
      LowBits(p, 6);
    }
    InsertExtract(w, 6, 26);
  }

  lemma {:induction false} ShlMultiplies(x: nat, n: nat)
    ensures Shl(x, n) == x * Shl(1, n)
  {
    if n != 0 {
      ShlMultiplies(x, n - 1);
    }
  }

  lemma {:induction false} PowersGrow(m: nat, n: nat)
    requires m <= n
    ensures Shl(1, m) <= Shl(1, n)
  {
    if m < n {
      PowersGrow(m, n - 1);
    }
  }

  lemma MaskValues()
    ensures I_MASK == Or(Ones(2), FieldBits(6, 26))
    ensures XL_MASK == Or(Ones(11), FieldBits(6, 26))
  {
    assert Ones(2) == 3 && Ones(11) == 2047 && Ones(6) == 63;
    Powers();
    ShlMultiplies(63, 26);
    PowersGrow(2, 26);
    PowersGrow(11, 26);
    OrHigh(3, 63, 26);
    OrHigh(2047, 63, 26);
  }

  /** The fields that the code extracts are the fields of the architecture's instruction formats. */
  lemma BranchFields(w: Word)
    ensures Extract(w, AA.bits, AA.shift) == w / 2 % 2
    ensures Extract(w, BD.bits, BD.shift) == w / 4 % 0x4000
    ensures Extract(w, BI.bits, BI.shift) == w / 0x1_0000 % 32
    ensures Extract(w, BO.bits, BO.shift) == w / 0x20_0000 % 32
    ensures Extract(w, LI.bits, LI.shift) == w / 4 % 0x100_0000
    ensures Extract(w, LK.bits, LK.shift) == w % 2
  {
    Powers();
    ExtractArithmetic(w, 1, 1);
    ExtractArithmetic(w, 14, 2);
    ExtractArithmetic(w, 5, 16);
    ExtractArithmetic(w, 5, 21);
    ExtractArithmetic(w, 24, 2);
    ExtractArithmetic(w, 1, 0);
  }

  lemma PrimaryArithmetic(w: Word)
    ensures Primary(w) == w / 0x400_0000
  {
    ShrDivides(w, 26);
    Powers();
  }

  /** The row found for a word has one of the branch opcodes exactly when the word is such a branch. */
  lemma RowForm(t: Table, w: Word, i: nat)
    requires TableOk(t) && BranchRows(t) && FirstMatch(t.opcodes, w) == Some(i)
    ensures var e, f := t.opcodes[i], FormOf(w);
            && (f.Conditional? <==> B_OPCODE <= e.opcode <= B_OPCODE + 3)
            && (f.Always? <==> I_OPCODE <= e.opcode <= I_OPCODE + 3)
            && (f.ToLink? <==> BCLR_OPCODE <= e.opcode <= BCLR_OPCODE + 1)
            && (f.ToCount? <==> BCCTR_OPCODE <= e.opcode <= BCCTR_OPCODE + 1)
            && (f.Conditional? ==> e.fields == [BO, BI, BD, AA, LK] && e.relative == !f.aa)
            && (f.Always? ==> e.fields == [LI, AA, LK] && e.relative == !f.aa)
            && (f.ToLink? || f.ToCount? ==> e.fields == [BO, BI, LK])
  {
    var e, p := t.opcodes[i], w / 0x400_0000;
    assert BranchRowOk(e);
    RowOpcode(e, w);
    PrimaryArithmetic(e.opcode);
    OpcodeRange(p, w, e.opcode);
  }

  lemma RowOpcode(e: Opcode, w: Word)
    requires EntryOk(e) && BranchRowOk(e) && Matches(e, w)
    ensures var p := w / 0x400_0000;
            && e.opcode / 0x400_0000 == p
            && (p == 16 || p == 18 ==> e.opcode == p * 0x400_0000 + w % 4)
            && (p == 19 ==> e.opcode == p * 0x400_0000 + w % 2048)
  {
    var p := w / 0x400_0000;
    PrimaryOfMasked(w, e.mask);
    PrimaryArithmetic(w);
    PrimaryArithmetic(e.opcode);
    MaskValues();
    assert Shl(1, 2) == 4 && Shl(1, 11) == 2048 by { Powers(); }
    if p == 16 || p == 18 {
      MaskedArithmetic(w, I_MASK, 2);
    } else if p == 19 {
      MaskedArithmetic(w, XL_MASK, 11);
    }
  }

  lemma OpcodeRange(p: int, w: Word, opcode: Word)
    requires p == w / 0x400_0000 && opcode / 0x400_0000 == p
    requires p == 16 || p == 18 ==> opcode == p * 0x400_0000 + w % 4
    requires p == 19 ==> opcode == p * 0x400_0000 + w % 2048
    ensures p == 16 <==> B_OPCODE <= opcode <= B_OPCODE + 3
    ensures p == 18 <==> I_OPCODE <= opcode <= I_OPCODE + 3
    ensures p == 19 && w / 2 % 1024 == 16 <==> BCLR_OPCODE <= opcode <= BCLR_OPCODE + 1
    ensures p == 19 && w / 2 % 1024 == 528 <==> BCCTR_OPCODE <= opcode <= BCCTR_OPCODE + 1
    ensures p == 16 || p == 18 ==> (opcode % 4 < 2) == (w / 2 % 2 == 0)
    ensures p == 19 ==> opcode % 2048 / 2 == w / 2 % 1024
  {
    assert w % 4 == 2 * (w / 2 % 2) + w % 2 by { DivModStep(w, 2); }
    assert w % 2048 == 2 * (w / 2 % 1024) + w % 2 by { DivModStep(w, 1024); }
    LowPart(opcode, p, w % 4, 4);
    LowPart(opcode, p, w % 2048, 2048);
  }

  lemma LowPart(x: Word, p: int, low: int, n: int)
    requires 0 <= low < n && (n == 4 || n == 2048)
    ensures x == p * 0x400_0000 + low ==> x % n == low
  {}

  // ----- find_next_address -----

  /** The switch on BO: counts down a copy of CTR and tests a bit of CR. */
  method TestBranch(bo: nat, bi: nat, ctr0: Word, cr: Word) returns (ctrOk: bool, condOk: bool)
    requires bo < 32 && bi < 32
    ensures ctrOk && condOk <==> Handled(bo) && CountOk(bo, ctr0) && ConditionOk(bo, bi, cr)
  {
    ctrOk, condOk := false, false;
    var ctr: int := ctr0;
    var bit := Bit(cr, 31 - bi);
    match bo / 2
    case 0 =>
      ctr := Wrap(ctr - 1);
      if ctr != 0 { ctrOk := true; }
      condOk := !bit;
    case 1 =>
      ctr := Wrap(ctr - 1);
      if ctr == 0 { ctrOk := true; }
      condOk := !bit;
    case 2 =>
      ctrOk := true;
      condOk := !bit;
    case 4 =>
      ctr := Wrap(ctr - 1);
      if ctr != 0 { ctrOk := true; }
      condOk := bit;
    case 5 =>
      ctr := Wrap(ctr - 1);
      if ctr == 0 { ctrOk := true; }
      condOk := bit;
    case 6 =>
      ctrOk := true;
      condOk := bit;
    case 8 =>
      ctr := Wrap(ctr - 1);
      if ctr != 0 { ctrOk, condOk := true, true; }
    case 9 =>
      ctr := Wrap(ctr - 1);
      if ctr == 0 { ctrOk, condOk := true, true; }
    case 10 =>
      ctrOk, condOk := true, true;
    case _ =>
  }

  /** What the switch on the opcode leaves in the local variables. */
  datatype Decoded = Decoded(branch: bool, conditional: bool, addr: Word, aa: bool, lk: bool, bo: nat, bi: nat)

  method DecodeRow(e: Opcode, instr: Word, r: Regs) returns (d: Decoded)
    requires B_OPCODE <= e.opcode <= B_OPCODE + 3 ==> e.fields == [BO, BI, BD, AA, LK]
    requires I_OPCODE <= e.opcode <= I_OPCODE + 3 ==> e.fields == [LI, AA, LK]
    requires BCLR_OPCODE <= e.opcode <= BCLR_OPCODE + 1 || BCCTR_OPCODE <= e.opcode <= BCCTR_OPCODE + 1 ==>
               e.fields == [BO, BI, LK]
    ensures B_OPCODE <= e.opcode <= B_OPCODE + 3 ==>
              d == Decoded(true, true, Displacement(Extract(instr, 14, 2), 0x2000), Extract(instr, 1, 1) != 0,
                           Extract(instr, 1, 0) != 0, Extract(instr, 5, 21), Extract(instr, 5, 16))
    ensures I_OPCODE <= e.opcode <= I_OPCODE + 3 ==>
              d == Decoded(true, false, Displacement(Extract(instr, 24, 2), 0x80_0000), Extract(instr, 1, 1) != 0,
                           Extract(instr, 1, 0) != 0, 0, 0)
    ensures BCLR_OPCODE <= e.opcode <= BCLR_OPCODE + 1 ==>
              d == Decoded(true, true, r.link, true, Extract(instr, 1, 0) != 0,
                           Extract(instr, 5, 21), Extract(instr, 5, 16))
    ensures BCCTR_OPCODE <= e.opcode <= BCCTR_OPCODE + 1 ==>
              d == Decoded(true, true, r.ctr, true, Extract(instr, 1, 0) != 0,
                           Extract(instr, 5, 21), Extract(instr, 5, 16))
    ensures d.branch || d == Decoded(false, false, 0, false, false, 0, 0)
    ensures d.branch <==> (|| B_OPCODE <= e.opcode <= B_OPCODE + 3 || I_OPCODE <= e.opcode <= I_OPCODE + 3
                           || BCLR_OPCODE <= e.opcode <= BCLR_OPCODE + 1
                           || BCCTR_OPCODE <= e.opcode <= BCCTR_OPCODE + 1)
  {
    d := Decoded(false, false, 0, false, false, 0, 0);
    if B_OPCODE <= e.opcode <= B_OPCODE + 3 {
      var addr := GetOperandValue(e, instr, BD.field);
      var bo := GetOperandValue(e, instr, BO.field);
      var bi := GetOperandValue(e, instr, BI.field);
      var aa := GetOperandValue(e, instr, AA.field);
      var lk := GetOperandValue(e, instr, LK.field);
      ConditionalFields(e.fields, instr);
      var width: nat := 14;
      BranchFields(instr);
      DisplacementArithmetic(addr.value, width);
      d := Decoded(true, true, DecodeDisplacement(addr.value, width), aa.value != 0, lk.value != 0, bo.value, bi.value);
    } else if I_OPCODE <= e.opcode <= I_OPCODE + 3 {
      var addr := GetOperandValue(e, instr, LI.field);
      var aa := GetOperandValue(e, instr, AA.field);
      var lk := GetOperandValue(e, instr, LK.field);
      AlwaysFields(e.fields, instr);
      var width: nat := 24;
      BranchFields(instr);
      DisplacementArithmetic(addr.value, width);
      d := Decoded(true, false, DecodeDisplacement(addr.value, width), aa.value != 0, lk.value != 0, 0, 0);
    } else if BCLR_OPCODE <= e.opcode <= BCLR_OPCODE + 1 || BCCTR_OPCODE <= e.opcode <= BCCTR_OPCODE + 1 {
      var bo := GetOperandValue(e, instr, BO.field);
      var bi := GetOperandValue(e, instr, BI.field);
      var lk := GetOperandValue(e, instr, LK.field);
      IndirectFields(e.fields, instr);
      var addr := if e.opcode <= BCLR_OPCODE + 1 then r.link else r.ctr;
      d := Decoded(true, true, addr, true, lk.value != 0, bo.value, bi.value);
    }
  }

  lemma ConditionalFields(fs: seq<Operand>, w: Word)
    requires fs == [BO, BI, BD, AA, LK]
    ensures OperandValue(fs, w, BO.field) == Some(Extract(w, 5, 21))
    ensures OperandValue(fs, w, BI.field) == Some(Extract(w, 5, 16))
    ensures OperandValue(fs, w, BD.field) == Some(Extract(w, 14, 2))
    ensures OperandValue(fs, w, AA.field) == Some(Extract(w, 1, 1))
    ensures OperandValue(fs, w, LK.field) == Some(Extract(w, 1, 0))
  {
    forall k | 0 <= k < 5
      ensures OperandValue(fs, w, fs[k].field) == Some(Extract(w, fs[k].bits, fs[k].shift))
    {
      OperandValueAt(fs, w, k);
    }
    assert fs[0] == BO && fs[1] == BI && fs[2] == BD && fs[3] == AA && fs[4] == LK;
  }

  lemma AlwaysFields(fs: seq<Operand>, w: Word)
    requires fs == [LI, AA, LK]
    ensures OperandValue(fs, w, LI.field) == Some(Extract(w, 24, 2))
    ensures OperandValue(fs, w, AA.field) == Some(Extract(w, 1, 1))
    ensures OperandValue(fs, w, LK.field) == Some(Extract(w, 1, 0))
  {
    OperandValueAt(fs, w, 0);
    OperandValueAt(fs, w, 1);
    OperandValueAt(fs, w, 2);
  }

  lemma IndirectFields(fs: seq<Operand>, w: Word)
    requires fs == [BO, BI, LK]
    ensures OperandValue(fs, w, BO.field) == Some(Extract(w, 5, 21))
    ensures OperandValue(fs, w, BI.field) == Some(Extract(w, 5, 16))
    ensures OperandValue(fs, w, LK.field) == Some(Extract(w, 1, 0))
  {
    OperandValueAt(fs, w, 0);
    OperandValueAt(fs, w, 1);
    OperandValueAt(fs, w, 2);
  }

  /** A displacement field reads as the architecture's sign-extended field times four. */
  lemma DisplacementArithmetic(f: nat, bits: nat)
    requires (bits == 14 && f < 0x4000) || (bits == 24 && f < 0x100_0000)
    ensures DecodeDisplacement(f, bits) == Displacement(f, if bits == 14 then 0x2000 else 0x80_0000)
  {
    Powers();
    assert Shl(1, 14) == 2 * Shl(1, 13) && Shl(1, 24) == 2 * Shl(1, 23);
    TopBit(f, bits - 1);
  }

  /** The local variables hold the fields of the form, and the address it would branch to. */
  ghost predicate Holds(d: Decoded, f: Form, r: Regs) {
    && d.branch == !f.Sequential?
    && d.conditional == (f.Conditional? || f.ToLink? || f.ToCount?)
    && (d.branch ==> d.lk == f.lk)
    && (d.conditional ==> d.bo == f.bo && d.bi == f.bi)
    && match f
       case Sequential => true
       case Always(li, aa, _) => d.aa == aa && d.addr == Displacement(li, 0x80_0000)
       case Conditional(_, _, bd, aa, _) => d.aa == aa && d.addr == Displacement(bd, 0x2000)
       case ToLink(_, _, _) => d.aa && d.addr == r.link
       case ToCount(_, _, _) => d.aa && d.addr == r.ctr
  }

  lemma FormByFields(w: Word)
    ensures var f, aa, lk := FormOf(w), Extract(w, 1, 1) != 0, Extract(w, 1, 0) != 0;
            var bo, bi := Extract(w, 5, 21), Extract(w, 5, 16);
            && (f.Always? ==> f == Always(Extract(w, 24, 2), aa, lk))
            && (f.Conditional? ==> f == Conditional(bo, bi, Extract(w, 14, 2), aa, lk))
            && (f.ToLink? ==> f == ToLink(bo, bi, lk))
            && (f.ToCount? ==> f == ToCount(bo, bi, lk))
  {
    BranchFields(w);
  }

  method DecodeInstruction(t: Table, instr: Word, r: Regs) returns (d: Option<Decoded>)
    requires TableOk(t) && BranchRows(t)
    ensures d.Some? == FirstMatch(t.opcodes, instr).Some?
    ensures d.Some? ==> Holds(d.value, FormOf(instr), r)
  {
    TableSteers(t, instr);
    var row := FindOpcode(t.opcodes, instr);
    if row.None? {
      return None;
    }
    RowForm(t, instr, row.value);
    FormByFields(instr);
    var decoded := DecodeRow(t.opcodes[row.value], instr, r);
    d := Some(decoded);
  }

  method FindNextAddress(t: Table, mem: Word -> Word, stepOver: bool, regs: Option<Regs>) returns (r: Option<Word>)
    requires TableOk(t) && BranchRows(t)
    ensures r == if regs.None? then None else NextAddress(t, mem, regs.value, stepOver)
  {
    if regs.None? {
      return None;
    }
    var pc := Aligned(regs.value.nip);
    var decoded := DecodeInstruction(t, mem(pc), regs.value);
    if decoded.None? {
      return None;
    }
    var addr := ChooseAddress(decoded.value, pc, regs.value, stepOver, FormOf(mem(pc)));
    r := Some(addr);
  }

  /** The end of `find_next_address`: is the branch taken, and where do `step` and `next` go. */
  method ChooseAddress(d: Decoded, pc: Word, r: Regs, stepOver: bool, ghost f: Form) returns (addr: Word)
    requires FormOk(f) && Holds(d, f, r)
    ensures addr == Predicted(f, pc, r, stepOver)
  {
    var ctrOk, condOk := false, false;
    if d.conditional {
      ctrOk, condOk := TestBranch(d.bo, d.bi, r.ctr, r.ccr);
    }
    var step, next := Following(pc), Following(pc);
    if d.branch && (!d.conditional || (ctrOk && condOk)) {
      step := if d.aa then d.addr else Wrap(d.addr + pc);
      next := if d.lk then Following(pc) else step;
    }
    addr := if stepOver then next else step;
  }

  // ----- stepping over -----

  /** Stepping over goes to the next instruction exactly where stepping in would enter a subroutine: on
      any branch that sets LR, whatever its kind, its condition and its target.  Everything else, stepping
      over is stepping in.  The program counter is taken without its low two bits. */
  lemma StepOverExact(t: Table, mem: Word -> Word, r: Regs)
    requires FirstMatch(t.opcodes, mem(r.nip - r.nip % 4)).Some?
    ensures var pc := r.nip - r.nip % 4; var w := mem(pc);
            var primary, xo := w / 0x400_0000, w / 2 % 1024;
            var branch := primary == 16 || primary == 18 || (primary == 19 && (xo == 16 || xo == 528));
            NextAddress(t, mem, r, true)
            == if branch && w % 2 == 1 then Some(Wrap(pc + 4)) else NextAddress(t, mem, r, false)
  {
  }

  /** A word without a row stops both. */
  lemma StepNeedsRow(t: Table, mem: Word -> Word, r: Regs, stepOver: bool)
    ensures NextAddress(t, mem, r, stepOver).None? <==> FirstMatch(t.opcodes, mem(r.nip - r.nip % 4)).None?
  {
  }

  /** An instruction that is no branch goes to the next one. */
  lemma StepStraightOn(t: Table, mem: Word -> Word, r: Regs, stepOver: bool)
    requires FirstMatch(t.opcodes, mem(r.nip - r.nip % 4)).Some?
    ensures var pc := r.nip - r.nip % 4; var primary, xo := mem(pc) / 0x400_0000, mem(pc) / 2 % 1024;
            !(primary == 16 || primary == 18 || (primary == 19 && (xo == 16 || xo == 528))) ==>
              NextAddress(t, mem, r, stepOver) == Some(Wrap(pc + 4))
  {
  }

  // ----- the condition of a branch -----

  /** The CR bit numbered `bi` from the left has the weight 2^(31 - bi). */
  lemma ConditionArithmetic(bo: nat, bi: nat, cr: Word)
    requires bo < 32 && bi < 32
    ensures ConditionOk(bo, bi, cr) <==> bo >= 16 || (cr / Shl(1, 31 - bi) % 2 == 1 <==> bo / 8 % 2 == 1)
  {
    BitShr(cr, 31 - bi, 0);
    ShrDivides(cr, 31 - bi);
  }

  /** CTR is counted down and tested unless bit 2 of BO is set; bit 3 asks for zero. */
  lemma CountArithmetic(bo: nat, ctr: Word)
    requires bo < 32
    ensures CountOk(bo, ctr) <==> bo / 4 % 2 == 1 || (ctr == 1 <==> bo / 2 % 2 == 1)
  {
  }

  /** When the stepper takes a conditional branch, in numbers: its BO is one of those listed, the count is
      as wanted and so is the condition. */
  predicate StepTaken(bo: nat, bi: nat, r: Regs)
    requires bi < 32
  {
    && bo / 2 in {0, 1, 2, 4, 5, 6, 8, 9, 10}
    && (bo / 4 % 2 == 1 || (r.ctr == 1 <==> bo / 2 % 2 == 1))
    && (bo >= 16 || (r.ccr / Shl(1, 31 - bi) % 2 == 1 <==> bo / 8 % 2 == 1))
  }

  lemma StepTakenExact(f: Form, r: Regs)
    requires FormOk(f) && !f.Sequential? && !f.Always?
    ensures PredictedTaken(f, r) <==> StepTaken(f.bo, f.bi, r)
  {
    ConditionArithmetic(f.bo, f.bi, r.ccr);
    CountArithmetic(f.bo, r.ctr);
  }

  /** `bc` goes four times its signed field on when it is taken, from its own address unless AA is set. */
  lemma ConditionalStep(t: Table, mem: Word -> Word, r: Regs, pc: Word, w: Word)
    requires pc == r.nip - r.nip % 4 && w == mem(pc) && FirstMatch(t.opcodes, w).Some? && w / 0x400_0000 == 16
    ensures var f := w / 4 % 0x4000; var bd := if f >= 0x2000 then f - 0x4000 else f;
            NextAddress(t, mem, r, false)
            == Some(if !StepTaken(w / 0x20_0000 % 32, w / 0x1_0000 % 32, r) then Wrap(pc + 4)
                    else if w / 2 % 2 == 1 then Wrap(4 * bd) else Wrap(pc + 4 * bd))
  {
    StepTakenExact(FormOf(w), r);
    TargetArithmetic(w / 4 % 0x4000, 0x2000, w / 2 % 2 == 1, pc);
  }

  lemma TargetArithmetic(x: int, half: int, aa: bool, pc: Word)
    ensures var s := if x >= half then x - 2 * half else x;
            Wrap(Displacement(x, half) + if aa then 0 else pc) == if aa then Wrap(4 * s) else Wrap(pc + 4 * s)
  {
    WrapAdd(4 * SignExtend(x, half), if aa then 0 else pc);
  }

  /** `bclr` goes to LR and `bcctr` to CTR when it is taken. */
  lemma RegisterStep(t: Table, mem: Word -> Word, r: Regs, pc: Word, w: Word)
    requires pc == r.nip - r.nip % 4 && w == mem(pc) && FirstMatch(t.opcodes, w).Some? && w / 0x400_0000 == 19
    requires w / 2 % 1024 == 16 || w / 2 % 1024 == 528
    ensures NextAddress(t, mem, r, false)
            == Some(if !StepTaken(w / 0x20_0000 % 32, w / 0x1_0000 % 32, r) then Wrap(pc + 4)
                    else if w / 2 % 1024 == 16 then r.link else r.ctr)
  {
    StepTakenExact(FormOf(w), r);
  }

  /** And of an unconditional one. */
  lemma AlwaysStep(t: Table, mem: Word -> Word, r: Regs, pc: Word, w: Word)
    requires pc == r.nip - r.nip % 4 && w == mem(pc) && FirstMatch(t.opcodes, w).Some? && w / 0x400_0000 == 18
    ensures var f := w / 4 % 0x100_0000; var li := if f >= 0x80_0000 then f - 0x100_0000 else f;
            NextAddress(t, mem, r, false) == Some(if w / 2 % 2 == 1 then Wrap(4 * li) else Wrap(pc + 4 * li))
  {
    TargetArithmetic(w / 4 % 0x100_0000, 0x80_0000, w / 2 % 2 == 1, pc);
  }

  // ----- prediction against the architecture -----

  /** `bcctr` may not count down: the architecture calls that form invalid. */
  predicate ValidForm(f: Form) {
    FormOk(f) && (f.ToCount? ==> BoBit(f.bo, 2))
  }

  /** The branch is not taken, or the switch knows its BO and the register it goes through is word
      aligned, or it leads to the following instruction anyway. */
  predicate Foreseen(f: Form, pc: Word, r: Regs)
    requires FormOk(f)
  {
    || !Taken(f, r) || f.Always?
    || (if Handled(f.bo) then (f.ToLink? ==> r.link % 4 == 0) && (f.ToCount? ==> r.ctr % 4 == 0)
        else Target(f, pc, r) == Following(pc))
  }

  /** For every valid form, address and registers: stepping predicts the architecture's next
      instruction exactly when the branch is foreseen. */
  lemma PredictionExact(f: Form, pc: Word, r: Regs)
    requires ValidForm(f)
    ensures Predicted(f, pc, r, false) == Nia(f, pc, r) <==> Foreseen(f, pc, r)
  {
    if f.ToCount? {
      assert CountOk(f.bo, r.ctr);
    }
  }

  predicate RegistersAligned(f: Form, r: Regs) {
    (f.ToLink? ==> r.link % 4 == 0) && (f.ToCount? ==> r.ctr % 4 == 0)
  }

  /** A conditional branch is predicted right for ALL register contents if and only if its BO has
      zero "z" bits, or it is a branch to the following instruction. */
  lemma PredictionAlways(f: Form, pc: Word)
    requires ValidForm(f) && !f.Sequential? && !f.Always?
    ensures (forall r: Regs :: RegistersAligned(f, r) ==> Predicted(f, pc, r, false) == Nia(f, pc, r)) <==>
            Handled(f.bo) || (f.Conditional? && Target(f, pc, Regs(0, 0, 0, 0)) == Following(pc))
  {
    forall r: Regs | RegistersAligned(f, r)
      ensures Handled(f.bo) || (f.Conditional? && Target(f, pc, Regs(0, 0, 0, 0)) == Following(pc)) ==>
                Predicted(f, pc, r, false) == Nia(f, pc, r)
    {
      PredictionExact(f, pc, r);
    }
    if !Handled(f.bo) && !(f.Conditional? && Target(f, pc, Regs(0, 0, 0, 0)) == Following(pc)) {
      var r := Counterexample(f, pc);
      PredictionExact(f, pc, r);
    }
  }

  /** Registers that take an unknown branch somewhere else. */
  lemma Counterexample(f: Form, pc: Word) returns (r: Regs)
    requires ValidForm(f) && !f.Sequential? && !f.Always?
    requires f.Conditional? ==> Target(f, pc, Regs(0, 0, 0, 0)) != Following(pc)
    ensures RegistersAligned(f, r) && Taken(f, r) && Target(f, pc, r) != Following(pc)
  {
    var far: Word := if Following(pc) == 0 then 8 else 0;
    var ctr: Word := if f.ToCount? then far else if BoBit(f.bo, 3) then 1 else 2;
    var cr: Word := if BoBit(f.bo, 1) then 0xFFFF_FFFF else 0;
    r := Regs(pc, ctr, cr, far);
    assert ConditionOk(f.bo, f.bi, cr) by {
      OnesWord();
      BitOnes(32, 31 - f.bi);
      BitOfZero(31 - f.bi);
    }
    assert CountOk(f.bo, ctr);
  }

  /** 0x4fe00020, a `bclr` with BO 31, "branch always" with its ignored bits set: the machine goes to LR,
      the stepper to the next instruction. */
  lemma IgnoredBitsMatter(t: Table, mem: Word -> Word, r: Regs)
    requires r.nip % 4 == 0 && mem(r.nip) == 0x4FE0_0020 && FirstMatch(t.opcodes, mem(r.nip)).Some?
    requires r.link == Wrap(r.nip + 8)
    ensures NextAddress(t, mem, r, false) == Some(Following(r.nip))
    ensures Nia(FormOf(mem(r.nip)), r.nip, r) == Wrap(r.nip + 8) != Following(r.nip)
  {
    assert FormOf(mem(r.nip)) == ToLink(31, 0, false);
    assert BoBit(31, 0) && BoBit(31, 2);
  }

  /** 0x4e800020 and 0x4e800420, `bclr` and `bcctr` always, through a register that is not word aligned:
      the machine clears its low bits, the stepper does not. */
  lemma MisalignedRegister(t: Table, mem: Word -> Word, r: Regs)
    requires r.nip % 4 == 0 && FirstMatch(t.opcodes, mem(r.nip)).Some?
    requires (mem(r.nip) == 0x4E80_0020 && r.link == 0x1002) || (mem(r.nip) == 0x4E80_0420 && r.ctr == 0x1002)
    ensures NextAddress(t, mem, r, false) == Some(0x1002)
    ensures ValidForm(FormOf(mem(r.nip))) && Nia(FormOf(mem(r.nip)), r.nip, r) == 0x1000
  {
    assert FormOf(mem(r.nip)) == if mem(r.nip) == 0x4E80_0020 then ToLink(20, 0, false) else ToCount(20, 0, false);
  }

  // ----- assemble, then step -----

  /** The displacement that a branch operand asks for. */
  function Distance(e: Opcode, pc: Word, target: Word): Word {
    if e.relative then Wrap(target - pc) else target
  }

  /** A displacement that is word aligned and in the signed 26-bit range. */
  predicate WithinReach(d: Word) {
    d % 4 == 0 && -0x200_0000 <= Signed(d) < 0x200_0000
  }

  /** The word that any accepted `b`, `bl`, `ba` or `bla` line assembles to at `pc`: stepping in goes
      where the disassembler says, stepping over a linking form goes to the following word, and that
      place is the number written in the line if and only if it is aligned and in the 26-bit reach. */
  lemma AssembleThenStep(t: Table, mem: Word -> Word, r: Regs, pc: Word, text: string, w: Word)
    requires TableOk(t) && BranchRows(t) && Accepts(t, pc, text) && Assemble(t, pc, text).word == w
    requires I_OPCODE <= t.opcodes[NamedRow(t, text).value].opcode <= I_OPCODE + 3
    requires r.nip == pc && pc % 4 == 0 && mem(pc) == w
    ensures var e, target := t.opcodes[NamedRow(t, text).value], ReadNumber(WordAt(text, 1));
            && e.fields == [LI, AA, LK]
            && var shown := BranchTarget(e, e.fields[0], w, pc);
            && NextAddress(t, mem, r, false) == Some(shown)
            && NextAddress(t, mem, r, true) == Some(if e.opcode % 2 == 1 then Following(pc) else shown)
            && (shown == target <==> WithinReach(Distance(e, pc, target)))
  {
    var i, x := NamedRow(t, text).value, WordAt(NextToken(text).rest, 0);
    var e := t.opcodes[i];
    assert FirstMatch(t.opcodes, w) == Some(i) by { AcceptedLine(t, pc, text); }
    ShownBranch(t, r, pc, w, e, i);
    LinkBit(t, w, i);
    StepsOf(t, mem, r, w, FormOf(w), BranchTarget(e, e.fields[0], w, pc));
    assert WordAt(text, 1) == x;
    AcceptedBranch(t, pc, text, w, e, 0, x);
    ShownTarget(e, e.fields[0], w, pc, ReadNumber(x));
  }

  /** Stepping into any unconditional branch goes where the disassembler says. */
  lemma ShownBranch(t: Table, r: Regs, pc: Word, w: Word, e: Opcode, i: nat)
    requires TableOk(t) && BranchRows(t) && FirstMatch(t.opcodes, w) == Some(i) && e == t.opcodes[i]
    requires I_OPCODE <= e.opcode <= I_OPCODE + 3
    ensures e.fields == [LI, AA, LK] && FormOf(w).Always?
    ensures Predicted(FormOf(w), pc, r, false) == BranchTarget(e, e.fields[0], w, pc)
  {
    RowForm(t, w, i);
    AlwaysField(w, e.fields[0]);
    ShownIsPredicted(e, e.fields[0], w, pc, r, FormOf(w));
  }

  lemma StepsOf(t: Table, mem: Word -> Word, r: Regs, w: Word, f: Form, shown: Word)
    requires FirstMatch(t.opcodes, w).Some? && r.nip % 4 == 0 && mem(r.nip) == w
    requires f == FormOf(w) && f.Always? && shown == Predicted(f, r.nip, r, false)
    ensures NextAddress(t, mem, r, false) == Some(shown)
    ensures NextAddress(t, mem, r, true) == Some(if f.lk then Following(r.nip) else shown)
  {}

  /** The branch field of an accepted line holds the encoded displacement. */
  lemma AcceptedBranch(t: Table, pc: Word, text: string, w: Word, e: Opcode, k: nat, x: string)
    requires TableOk(t) && Accepts(t, pc, text) && Assemble(t, pc, text).word == w
    requires e == t.opcodes[NamedRow(t, text).value] && k < |e.fields| && x == WordAt(NextToken(text).rest, k)
    requires OperandOk(e.fields[k]) && e.fields[k].kind.Addr? && !e.fields[k].silent
    ensures Extract(w, e.fields[k].bits, e.fields[k].shift)
            == EncodeDisplacement(Distance(e, pc, ReadNumber(x)), e.fields[k].bits)
  {
    var o := e.fields[k];
    AcceptedLine(t, pc, text);
    assert EntryOk(e);
    OperandValueAt(e.fields, w, k);
    assert Extract(w, o.bits, o.shift) == And(OperandData(t, pc, e, o, x).data, Ones(o.bits));
    BranchData(t, pc, e, o, x);
  }

  /** Any branch operand of any accepted line, whatever its width: the word shows the target that was typed
      if and only if that is in the field's reach. */
  lemma TypedTarget(t: Table, pc: Word, text: string, w: Word, e: Opcode, k: nat, target: Word)
    requires TableOk(t) && Accepts(t, pc, text) && Assemble(t, pc, text).word == w
    requires e == t.opcodes[NamedRow(t, text).value] && k < |e.fields|
    requires OperandOk(e.fields[k]) && e.fields[k].kind.Addr? && !e.fields[k].silent
    requires target == ReadNumber(WordAt(NextToken(text).rest, k))
    ensures BranchTarget(e, e.fields[k], w, pc) == target <==> InReach(Distance(e, pc, target), e.fields[k].bits)
  {
    AcceptedBranch(t, pc, text, w, e, k, WordAt(NextToken(text).rest, k));
    ShownInReach(e, e.fields[k], w, pc, target);
  }

  lemma ShownInReach(e: Opcode, o: Operand, w: Word, pc: Word, target: Word)
    requires OperandOk(o) && o.kind.Addr?
    requires Extract(w, o.bits, o.shift) == EncodeDisplacement(Distance(e, pc, target), o.bits)
    ensures BranchTarget(e, o, w, pc) == target <==> InReach(Distance(e, pc, target), o.bits)
  {
    DecodeEncode(Distance(e, pc, target), o.bits);
    BackAndForth(DecodeDisplacement(Extract(w, o.bits, o.shift), o.bits), target, pc);
  }

  /** A typed immediate field of an accepted line holds the number modulo the field's range. */
  lemma TypedField(t: Table, pc: Word, text: string, w: Word, e: Opcode, k: nat)
    requires TableOk(t) && Accepts(t, pc, text) && Assemble(t, pc, text).word == w
    requires e == t.opcodes[NamedRow(t, text).value] && k < |e.fields|
    requires OperandOk(e.fields[k]) && e.fields[k].kind.Plain? && !e.fields[k].silent
    ensures Extract(w, e.fields[k].bits, e.fields[k].shift)
            == ReadNumber(WordAt(NextToken(text).rest, k)) % Shl(1, e.fields[k].bits)
  {
    AcceptedLine(t, pc, text);
    assert EntryOk(e);
    OperandValueAt(e.fields, w, k);
    var data := ErrorFreeData(t, pc, e, e.fields[k], WordAt(NextToken(text).rest, k));
    AndOnes(data, e.fields[k].bits);
  }

  /** The word that any accepted `bc`, `bcl`, `bca` or `bcla` line assembles to at `pc`: stepping goes to
      the typed target, if it is in reach, exactly when the typed BO and BI say that the branch is taken. */
  lemma AssembleThenStepIf(t: Table, mem: Word -> Word, r: Regs, pc: Word, text: string, w: Word)
    requires TableOk(t) && BranchRows(t) && Accepts(t, pc, text) && Assemble(t, pc, text).word == w
    requires B_OPCODE <= t.opcodes[NamedRow(t, text).value].opcode <= B_OPCODE + 3
    requires r.nip == pc && pc % 4 == 0 && mem(pc) == w
    ensures var e, rest := t.opcodes[NamedRow(t, text).value], NextToken(text).rest;
            var bo, bi, target := ReadNumber(WordAt(rest, 0)) % 32, ReadNumber(WordAt(rest, 1)) % 32,
                                  ReadNumber(WordAt(rest, 2));
            && (!StepTaken(bo, bi, r) ==> NextAddress(t, mem, r, false) == Some(Following(pc)))
            && (StepTaken(bo, bi, r) ==>
                  (NextAddress(t, mem, r, false) == Some(target) <==> InReach(Distance(e, pc, target), 14)))
  {
    var i, rest := NamedRow(t, text).value, NextToken(text).rest;
    var n0, n1, target := ReadNumber(WordAt(rest, 0)), ReadNumber(WordAt(rest, 1)), ReadNumber(WordAt(rest, 2));
    assert FirstMatch(t.opcodes, w) == Some(i) by { AcceptedLine(t, pc, text); }
    TypedConditional(t, pc, text, w, t.opcodes[i], n0, n1, target);
    ConditionalOutcome(t, mem, r, pc, w, i, n0, n1, target);
  }

  /** What an accepted conditional branch line leaves in the word: the fields are the numbers typed. */
  ghost predicate HoldsTyped(e: Opcode, w: Word, pc: Word, n0: Word, n1: Word, target: Word) {
    && |e.fields| == 5 && e.fields == [BO, BI, BD, AA, LK]
    && Extract(w, e.fields[0].bits, e.fields[0].shift) == n0 % Shl(1, e.fields[0].bits)
    && Extract(w, e.fields[1].bits, e.fields[1].shift) == n1 % Shl(1, e.fields[1].bits)
    && (BranchTarget(e, e.fields[2], w, pc) == target <==> InReach(Distance(e, pc, target), e.fields[2].bits))
  }

  lemma TypedConditional(t: Table, pc: Word, text: string, w: Word, e: Opcode, n0: Word, n1: Word, target: Word)
    requires TableOk(t) && BranchRows(t) && Accepts(t, pc, text) && Assemble(t, pc, text).word == w
    requires e == t.opcodes[NamedRow(t, text).value] && B_OPCODE <= e.opcode <= B_OPCODE + 3
    requires n0 == ReadNumber(WordAt(NextToken(text).rest, 0)) && n1 == ReadNumber(WordAt(NextToken(text).rest, 1))
    requires target == ReadNumber(WordAt(NextToken(text).rest, 2))
    ensures HoldsTyped(e, w, pc, n0, n1, target)
  {
    ConditionalOpcode(t, e);
    TypedField(t, pc, text, w, e, 0);
    TypedField(t, pc, text, w, e, 1);
    TypedTarget(t, pc, text, w, e, 2, target);
  }

  lemma ConditionalOpcode(t: Table, e: Opcode)
    requires TableOk(t) && BranchRows(t) && e in t.opcodes && B_OPCODE <= e.opcode <= B_OPCODE + 3
    ensures EntryOk(e) && e.fields == [BO, BI, BD, AA, LK]
  {
    assert EntryOk(e) && BranchRowOk(e);
    PrimaryArithmetic(e.opcode);
  }

  lemma ConditionalOutcome(t: Table, mem: Word -> Word, r: Regs, pc: Word, w: Word, i: nat,
                           n0: Word, n1: Word, target: Word)
    requires TableOk(t) && BranchRows(t) && FirstMatch(t.opcodes, w) == Some(i)
    requires B_OPCODE <= t.opcodes[i].opcode <= B_OPCODE + 3 && HoldsTyped(t.opcodes[i], w, pc, n0, n1, target)
    requires r.nip == pc && pc % 4 == 0 && mem(pc) == w
    ensures !StepTaken(n0 % 32, n1 % 32, r) ==> NextAddress(t, mem, r, false) == Some(Following(pc))
    ensures StepTaken(n0 % 32, n1 % 32, r) ==>
              (NextAddress(t, mem, r, false) == Some(target) <==> InReach(Distance(t.opcodes[i], pc, target), 14))
  {
    var e := t.opcodes[i];
    ConditionalRow(t, w, i);
    FiveBitFields(w, e.fields[0], e.fields[1]);
    ConditionalShown(t, mem, r, pc, w, e, i);
  }

  lemma ConditionalRow(t: Table, w: Word, i: nat)
    requires TableOk(t) && BranchRows(t) && FirstMatch(t.opcodes, w) == Some(i)
    requires B_OPCODE <= t.opcodes[i].opcode <= B_OPCODE + 3
    ensures t.opcodes[i].fields == [BO, BI, BD, AA, LK] && FormOf(w).Conditional?
    ensures t.opcodes[i].relative == !FormOf(w).aa
    ensures EntryOk(t.opcodes[i])
  {
    RowForm(t, w, i);
  }

  lemma FiveBitFields(w: Word, o: Operand, p: Operand)
    requires o == BO && p == BI && FormOf(w).Conditional?
    ensures Extract(w, o.bits, o.shift) == FormOf(w).bo && Extract(w, p.bits, p.shift) == FormOf(w).bi
    ensures Shl(1, o.bits) == 32 && Shl(1, p.bits) == 32
  {
    BranchFields(w);
    Powers();
  }

  lemma ConditionalShown(t: Table, mem: Word -> Word, r: Regs, pc: Word, w: Word, e: Opcode, i: nat)
    requires FirstMatch(t.opcodes, w) == Some(i) && e == t.opcodes[i] && e.fields == [BO, BI, BD, AA, LK]
    requires FormOf(w).Conditional? && e.relative == !FormOf(w).aa
    requires r.nip == pc && pc % 4 == 0 && mem(pc) == w
    ensures NextAddress(t, mem, r, false)
            == Some(if StepTaken(FormOf(w).bo, FormOf(w).bi, r) then BranchTarget(e, e.fields[2], w, pc)
                    else Following(pc))
  {
    StepTakenExact(FormOf(w), r);
    ConditionalField(w, e.fields[2]);
    ConditionalTarget(e, e.fields[2], w, pc, r, FormOf(w));
    assert Aligned(r.nip) == pc;
  }

  lemma ConditionalField(w: Word, o: Operand)
    requires o == BD && FormOf(w).Conditional?
    ensures FormOf(w).bd == Extract(w, o.bits, o.shift) < 0x4000
  {
    BranchFields(w);
  }

  lemma ConditionalTarget(e: Opcode, o: Operand, w: Word, pc: Word, r: Regs, f: Form)
    requires f.Conditional? && f.bd == Extract(w, o.bits, o.shift) && f.bd < 0x4000
    requires OperandOk(o) && o.bits == 14 && e.relative == !f.aa
    ensures PredictedTarget(f, pc, r) == BranchTarget(e, o, w, pc)
  {
    assert DecodeDisplacement(f.bd, o.bits) == Displacement(f.bd, 0x2000) by {
      DisplacementArithmetic(f.bd, o.bits);
    }
  }

  lemma BranchData(t: Table, pc: Word, e: Opcode, o: Operand, x: string)
    requires OperandOk(o) && o.kind.Addr?
    ensures var f := EncodeDisplacement(Distance(e, pc, ReadNumber(x)), o.bits);
            OperandData(t, pc, e, o, x) == Value(f) && And(f, Ones(o.bits)) == f
  {
    var d := Distance(e, pc, ReadNumber(x));
    assert EncodeDisplacement(d, o.bits) <= Ones(o.bits) by { DecodeEncode(d, o.bits); }
    LowBits(EncodeDisplacement(d, o.bits), o.bits);
  }

  lemma ShownTarget(e: Opcode, o: Operand, w: Word, pc: Word, target: Word)
    requires OperandOk(o) && o.bits == 24
    requires Extract(w, o.bits, o.shift) == EncodeDisplacement(Distance(e, pc, target), o.bits)
    ensures BranchTarget(e, o, w, pc) == target <==> WithinReach(Distance(e, pc, target))
  {
    var d := Distance(e, pc, target);
    BranchReach(d, o.bits);
    BackAndForth(DecodeDisplacement(Extract(w, o.bits, o.shift), o.bits), target, pc);
  }

  lemma AlwaysField(w: Word, o: Operand)
    requires o == LI && FormOf(w).Always?
    ensures FormOf(w).li == Extract(w, o.bits, o.shift) < 0x100_0000
  {
    assert Extract(w, o.bits, o.shift) == w / 4 % 0x100_0000 by { BranchFields(w); }
  }

  lemma ShownIsPredicted(e: Opcode, o: Operand, w: Word, pc: Word, r: Regs, f: Form)
    requires f.Always? && f.li == Extract(w, o.bits, o.shift) && f.li < 0x100_0000
    requires OperandOk(o) && o.bits == 24 && e.relative == !f.aa
    ensures Predicted(f, pc, r, false) == BranchTarget(e, o, w, pc)
  {
    assert DecodeDisplacement(f.li, o.bits) == Displacement(f.li, 0x80_0000) by {
      DisplacementArithmetic(f.li, o.bits);
    }
  }

  lemma Ones24(f: nat, width: nat)
    requires width == 24
    ensures f <= Ones(width) <==> f < 0x100_0000
    ensures Shl(1, width + 1) == 0x200_0000
  {
    Powers();
    AndOnes(0, width);
  }

  lemma LinkBit(t: Table, w: Word, i: nat)
    requires TableOk(t) && BranchRows(t) && FirstMatch(t.opcodes, w) == Some(i) && FormOf(w).Always?
    ensures (t.opcodes[i].opcode % 2 == 1) == FormOf(w).lk
  {
    var e := t.opcodes[i];
    assert EntryOk(e) && BranchRowOk(e);
    RowOpcode(e, w);
    LowBit(e.opcode, w);
  }

  lemma LowBit(opcode: Word, w: Word)
    requires opcode == 18 * 0x400_0000 + w % 4
    ensures opcode % 2 == w % 2
  {}

  lemma BackAndForth(dec: Word, target: Word, pc: Word)
    ensures Wrap(dec + pc) == target <==> dec == Wrap(target - pc)
  {}

  lemma ReachNumbers(d: Word, width: nat)
    requires width == 24
    ensures InReach(d, width) <==> WithinReach(d)
  {
    Ones24(0, width);
  }

  lemma BranchReach(d: Word, width: nat)
    requires width == 24
    ensures DecodeDisplacement(EncodeDisplacement(d, width), width) == d <==> WithinReach(d)
  {
    assert InReach(d, width) <==> WithinReach(d) by { ReachNumbers(d, width); }
    DecodeEncode(d, width);
  }
}
