/**
  The tables of include/bedbug/tables.h are well formed and their mnemonics are pairwise different, so
  every result about well-formed tables holds of the assembler, disassembler and stepper as they are built.
  What the text round trip comes to on those tables, for words of particular instructions.
 */
module Ppc {
  import opened Wrappers
  import opened Words
  import opened Text
  import opened Tables
  import opened Assembler
  import opened Disassembler
  import opened RoundTrip
  import opened Branch
  import opened TableCheck
  import opened PpcRows
  import opened PpcNames

  function Shipped(): Table {
    Table(OpcodeRows(), SpecialRegisters())
  }

  // ----- the tables are well formed -----

  /** Good rows in increasing order make a well-formed table. */
  lemma RunIsOk(t: Table, lo: nat)
    requires Run(t.opcodes, lo) && AllCapitals(t.sprs)
    ensures TableOk(t) && BranchRows(t)
  {
    forall i | 0 <= i < |t.sprs| ensures SprOk(t.sprs[i]) {
      CapitalsName(t.sprs[i]);
    }
    assert Ordered(t.opcodes) by {
      forall i, j | 0 <= i < j < |t.opcodes| && Primary(t.opcodes[i].opcode) == Primary(t.opcodes[j].opcode)
        ensures t.opcodes[i].mask == t.opcodes[j].mask
      {
        assert Good(t.opcodes[i]) && Good(t.opcodes[j]);
      }
    }
  }

  lemma CapitalsName(s: SprInfo)
    requires Capitals(s.name)
    ensures SprOk(s)
  {
    assert s.name[0] in s.name;
    forall c | c in s.name ensures IsWordChar(c) {
      var i :| 0 <= i < |s.name| && s.name[i] == c;
    }
  }

  lemma SprJoin(a: seq<SprInfo>, b: seq<SprInfo>)
    requires AllCapitals(a) && AllCapitals(b)
    ensures AllCapitals(a + b)
  {
  }

  lemma SpecialRegistersOk()
    ensures AllCapitals(SpecialRegisters())
  {
    Sprs1Ok();
    Sprs2Ok();
    Sprs3Ok();
    Sprs4Ok();
    Sprs5Ok();
    Sprs6Ok();
    Sprs7Ok();
    var a := Sprs1() + Sprs2();
    var b := a + Sprs3();
    var c := b + Sprs4();
    var d := c + Sprs5();
    var e := d + Sprs6();
    SprJoin(Sprs1(), Sprs2());
    SprJoin(a, Sprs3());
    SprJoin(b, Sprs4());
    SprJoin(c, Sprs5());
    SprJoin(d, Sprs6());
    SprJoin(e, Sprs7());
  }

  /** The shipped tables are well formed, and their branch rows have the architecture's formats. */
  lemma ShippedTableOk()
    ensures TableOk(Shipped()) && BranchRows(Shipped())
  {
    OpcodeRowsOk([]);
    SpecialRegistersOk();
    RunIsOk(Shipped(), 0x0C00_0000);
  }

  /** Every row is the first of its name. */
  predicate OwnNames(t: Table) {
    forall i: nat :: i < |t.opcodes| ==> FirstNamed(t.opcodes, t.opcodes[i].name) == Some(i)
  }

  lemma ListedOwnNames(t: Table)
    requires TableOk(t) && Listed(t.opcodes)
    ensures OwnNames(t)
  {
    forall i: nat | i < |t.opcodes| ensures FirstNamed(t.opcodes, t.opcodes[i].name) == Some(i) {
      ListedNames(t.opcodes, i);
    }
  }

  /** No two shipped rows have the same mnemonic. */
  lemma ShippedNames()
    ensures OwnNames(Shipped())
  {
    ShippedTableOk();
    OpcodeRowsListed([]);
    ListedOwnNames(Shipped());
  }

  // ----- the round trip on such tables -----

  lemma OwnNamesRoundTrip(t: Table, w: Word, a: Word)
    requires TableOk(t) && OwnNames(t)
    ensures Assemble(t, a, Instruction(t, w, a)) == AsmResult(w, NoError) <==>
            FirstMatch(t.opcodes, w).Some? && ReadsBack(t, t.opcodes[FirstMatch(t.opcodes, w).value], w)
  {
    TextRoundTrip(t, w, a);
  }

  /** THE ROUND TRIP AS BUILT.  For every word and address: assembling what was printed gives back the word
      if and only if the word decodes and its printed form can be read back. */
  lemma ShippedRoundTrip(t: Table, w: Word, a: Word)
    requires t == Shipped()
    ensures TableOk(t)
    ensures Assemble(t, a, Instruction(t, w, a)) == AsmResult(w, NoError) <==>
            FirstMatch(t.opcodes, w).Some? && ReadsBack(t, t.opcodes[FirstMatch(t.opcodes, w).value], w)
  {
    ShippedTableOk();
    ShippedNames();
    OwnNamesRoundTrip(t, w, a);
  }

  /** The words of a row that is in the table decode to it. */
  lemma Decodes(t: Table, e: Opcode, w: Word) returns (i: nat)
    requires TableOk(t) && e in t.opcodes && Matches(e, w)
    ensures i < |t.opcodes| && t.opcodes[i] == e && FirstMatch(t.opcodes, w) == Some(i)
  {
    i :| 0 <= i < |t.opcodes| && t.opcodes[i] == e;
    UniqueMatch(t, w, i, i);
  }

  /** Bit `i` is in the row's mask or in an operand that is written out. */
  predicate Covered(e: Opcode, i: nat) {
    Bit(e.mask, i) || exists k :: 0 <= k < |e.fields| && !e.fields[k].silent
                                  && e.fields[k].shift <= i < e.fields[k].shift + e.fields[k].bits
  }

  lemma NoStrayBits(e: Opcode, w: Word)
    requires forall i: nat :: i < 32 ==> Covered(e, i)
    ensures And(w, Or(e.mask, VisibleBits(e.fields))) == w
  {
    var all := Or(e.mask, VisibleBits(e.fields));
    forall i: nat ensures Bit(And(w, all), i) == Bit(w, i) {
      BitAnd(w, all, i);
      BitOr(e.mask, VisibleBits(e.fields), i);
      VisibleBit(e.fields, i);
      if i < 32 {
        assert Covered(e, i);
      } else {
        WordBits(w, i);
      }
    }
    SameBits(And(w, all), w);
  }

  /** At most seven letters, only registers of five bits, immediates of at most sixteen and branch targets
      as operands, no bit left over. */
  predicate Ordinary(e: Opcode) {
    && |e.name| <= 7
    && (forall k :: 0 <= k < |e.fields| && !e.fields[k].silent ==> Narrow(e.fields[k]))
    && (forall i: nat :: i < 32 ==> Covered(e, i))
  }

  predicate Narrow(o: Operand) {
    o.kind.Addr? || (o.kind.Reg? && o.bits <= 5) || (o.kind.Plain? && o.bits <= 16)
  }

  lemma NarrowReadable(t: Table, o: Operand, w: Word)
    requires Narrow(o)
    ensures Readable(t, o, w)
  {
    ExtractBounded(w, o.bits, o.shift);
    if o.kind.Reg? {
      OnesMonotone(o.bits, 5);
    } else if o.kind.Plain? {
      OnesMonotone(o.bits, 16);
      assert Ones(8) == 255;
    }
  }

  lemma OrdinaryReadsBack(t: Table, e: Opcode, w: Word)
    requires Ordinary(e)
    ensures ReadsBack(t, e, w)
  {
    forall k | 0 <= k < |e.fields| && !e.fields[k].silent ensures Readable(t, e.fields[k], w) {
      NarrowReadable(t, e.fields[k], w);
    }
    NoStrayBits(e, w);
  }

  /** Every word of an ordinary row is read back at every address. */
  lemma OrdinaryRow(t: Table, e: Opcode, w: Word, a: Word)
    requires TableOk(t) && OwnNames(t) && e in t.opcodes && Matches(e, w)
    requires Ordinary(e)
    ensures Assemble(t, a, Instruction(t, w, a)) == AsmResult(w, NoError)
  {
    var i := Decodes(t, e, w);
    OrdinaryReadsBack(t, e, w);
    OwnNamesRoundTrip(t, w, a);
  }

  /** The mnemonic is intact, but an operand cannot be read. */
  predicate Unreadable(t: Table, e: Opcode, w: Word) {
    |e.name| <= 7 && !AllLegible(t, e, w)
  }

  /** A word with an operand that cannot be read is rejected when it is typed back. */
  lemma UnreadableRow(t: Table, e: Opcode, w: Word, a: Word)
    requires TableOk(t) && OwnNames(t) && e in t.opcodes && Matches(e, w) && Unreadable(t, e, w)
    ensures var r := Assemble(t, a, Instruction(t, w, a)); r.word == 0 && r.err != NoError
  {
    var i := Decodes(t, e, w);
    IntactLine(t, w, a, i);
  }

  // ----- four instructions -----

  predicate IsOri(e: Opcode) {
    e.opcode == 24 * 0x400_0000 && e.mask == D_MASK && e.fields == [rA, rS, UIMM] && e.name == "ori"
  }

  predicate IsLwz(e: Opcode) {
    e.opcode == 32 * 0x400_0000 && e.mask == D_MASK && e.fields == [rD, Disp, rA] && e.name == "lwz" && e.ra0
  }

  predicate IsMfspr(e: Opcode) {
    e.opcode == 31 * 0x400_0000 + 678 && e.mask == XL_MASK && e.fields == [rD, spr] && e.name == "mfspr"
  }

  predicate IsSubfzeo(e: Opcode) {
    && e.opcode == 31 * 0x400_0000 + 1425 && e.mask == XL_MASK
    && e.fields == [rD, rA, OE, Rc] && e.name == "subfzeo."
  }

  predicate IsBclr(e: Opcode) {
    e.opcode == 19 * 0x400_0000 + 32 && e.mask == XL_MASK
  }

  predicate IsBcctr(e: Opcode) {
    e.opcode == 19 * 0x400_0000 + 1056 && e.mask == XL_MASK
  }

  lemma DMatches(w: Word, primary: nat)
    requires w / 0x400_0000 == primary
    ensures And(w, D_MASK) == primary * 0x400_0000
  {
    Masks();
    MaskedArithmetic(w, D_MASK, 0);
  }

  lemma XMatches(w: Word, low: nat)
    requires w % 2048 == low
    ensures And(w, XL_MASK) == w / 0x400_0000 * 0x400_0000 + low
  {
    MaskValues();
    assert Shl(1, 11) == 2048 by { Powers(); }
    MaskedArithmetic(w, XL_MASK, 11);
  }

  lemma OriCovered(e: Opcode, i: nat)
    requires IsOri(e) && i < 32
    ensures Covered(e, i)
  {
    if i >= 26 {
      Masks();
      BitOr(Ones(0), FieldBits(6, 26), i);
      BitField(6, 26, i);
    } else {
      var k := if i < 16 then 2 else if i < 21 then 0 else 1;
      assert e.fields[k].shift <= i < e.fields[k].shift + e.fields[k].bits;
    }
  }

  lemma OriOrdinary(e: Opcode, w: Word)
    requires IsOri(e) && w / 0x400_0000 == 24
    ensures Ordinary(e) && Matches(e, w)
  {
    forall i: nat | i < 32 ensures Covered(e, i) {
      OriCovered(e, i);
    }
    DMatches(w, 24);
  }

  lemma LwzUnreadable(t: Table, e: Opcode, w: Word)
    requires IsLwz(e) && w / 0x400_0000 == 32
    ensures Unreadable(t, e, w) && Matches(e, w)
  {
    assert !Legible(t, e.fields[1], w);
    DMatches(w, 32);
  }

  lemma MfsprUnreadable(t: Table, e: Opcode, w: Word)
    requires IsMfspr(e) && w / 0x400_0000 == 31 && w % 2048 == 678
    requires SprNumber(w) == 0 || exists i :: 0 <= i < |t.sprs| && t.sprs[i].number == SprNumber(w)
    ensures Unreadable(t, e, w) && Matches(e, w)
  {
    assert !Legible(t, e.fields[1], w);
    XMatches(w, 678);
  }

  lemma SubfzeoCut(e: Opcode, w: Word)
    requires IsSubfzeo(e) && w / 0x400_0000 == 31 && w % 2048 == 1425
    ensures !MnemonicIntact(e, w) && Matches(e, w)
  {
    XMatches(w, 1425);
  }

  /** Every `ori` is read back. */
  lemma OriReadsBack(t: Table, e: Opcode, w: Word, a: Word)
    requires TableOk(t) && OwnNames(t) && e in t.opcodes && IsOri(e) && w / 0x400_0000 == 24
    ensures Assemble(t, a, Instruction(t, w, a)) == AsmResult(w, NoError)
  {
    OriOrdinary(e, w);
    OrdinaryRow(t, e, w, a);
  }

  /** No `lwz` is. */
  lemma LwzRejected(t: Table, e: Opcode, w: Word, a: Word)
    requires TableOk(t) && OwnNames(t) && e in t.opcodes && IsLwz(e) && w / 0x400_0000 == 32
    ensures var r := Assemble(t, a, Instruction(t, w, a)); r.word == 0 && r.err != NoError
  {
    LwzUnreadable(t, e, w);
    UnreadableRow(t, e, w, a);
  }

  /** The number of the register that an `mfspr` names. */
  function SprNumber(w: Word): nat {
    SwapHalves(Extract(w, 10, 11))
  }

  /** An `mfspr` of register 0, or of any register that has a name, is rejected when it is typed back. */
  lemma MfsprRejected(t: Table, e: Opcode, w: Word, a: Word)
    requires TableOk(t) && OwnNames(t) && e in t.opcodes && IsMfspr(e)
    requires w / 0x400_0000 == 31 && w % 2048 == 678
    requires SprNumber(w) == 0 || exists i :: 0 <= i < |t.sprs| && t.sprs[i].number == SprNumber(w)
    ensures var r := Assemble(t, a, Instruction(t, w, a)); r.word == 0 && r.err != NoError
  {
    MfsprUnreadable(t, e, w);
    UnreadableRow(t, e, w, a);
  }

  /** Every `subfzeo.` runs into its first operand, and is then an unknown mnemonic. */
  lemma SubfzeoRejected(t: Table, e: Opcode, w: Word, a: Word)
    requires TableOk(t) && e in t.opcodes && IsSubfzeo(e)
    requires w / 0x400_0000 == 31 && w % 2048 == 1425
    ensures Assemble(t, a, Instruction(t, w, a)) == AsmResult(0, BadOpcode)
  {
    SubfzeoCut(e, w);
    var i := Decodes(t, e, w);
    CutLine(t, w, a, i);
  }

  // ----- they are in the shipped table -----

  lemma OriIn(rows: seq<Opcode>, rest: seq<Opcode>)
    requires Within(Part4(rest), rows)
    ensures exists e :: e in rows && IsOri(e)
  {
    var r := D(24, L3(rA, rS, UIMM), "ori", false);
    PrependHas(Rows10(), Prepend(Rows11(), Prepend(Rows12(), rest)), r);
    assert IsOri(Entry(r));
  }

  lemma LwzIn(rows: seq<Opcode>, rest: seq<Opcode>)
    requires Within(Part17(rest), rows)
    ensures exists e :: e in rows && IsLwz(e)
  {
    var r := D(32, L3(rD, Disp, rA), "lwz", true);
    PrependHas(Rows49(), Prepend(Rows50(), Prepend(Rows51(), rest)), r);
    assert IsLwz(Entry(r));
  }

  lemma MfsprIn(rows: seq<Opcode>, rest: seq<Opcode>)
    requires Within(Part10(rest), rows)
    ensures exists e :: e in rows && IsMfspr(e)
  {
    var r := X(31, 339, 0, L2(rD, spr), "mfspr", false);
    PrependHas(Rows29(), Prepend(Rows30(), rest), r);
    PrependKeeps(Rows28(), Prepend(Rows29(), Prepend(Rows30(), rest)));
    assert IsMfspr(Entry(r));
  }

  lemma BclrIn(rows: seq<Opcode>, rest: seq<Opcode>)
    requires Within(Part2(rest), rows)
    ensures exists e :: e in rows && IsBclr(e)
  {
    var r := JumpTo(16, 0, "bclr");
    PrependHas(Rows4(), Prepend(Rows5(), Prepend(Rows6(), rest)), r);
    assert IsBclr(Entry(r));
  }

  lemma BcctrIn(rows: seq<Opcode>, rest: seq<Opcode>)
    requires Within(Part3(rest), rows)
    ensures exists e :: e in rows && IsBcctr(e)
  {
    var r := JumpTo(528, 0, "bcctr");
    PrependHas(Rows7(), Prepend(Rows8(), Prepend(Rows9(), rest)), r);
    assert IsBcctr(Entry(r));
  }

  lemma SubfzeoIn(rows: seq<Opcode>, rest: seq<Opcode>)
    requires Within(Part14(rest), rows)
    ensures exists e :: e in rows && IsSubfzeo(e)
  {
    var r := XO(31, 200, 1, 1, L4(rD, rA, OE, Rc), "subfzeo.");
    PrependHas(Rows41(), Prepend(Rows42(), rest), r);
    PrependKeeps(Rows40(), Prepend(Rows41(), Prepend(Rows42(), rest)));
    assert IsSubfzeo(Entry(r));
  }

  /** The rows and the special register that the words below need are there. */
  ghost predicate HasRows(t: Table) {
    && (exists e :: e in t.opcodes && IsOri(e))
    && (exists e :: e in t.opcodes && IsLwz(e))
    && (exists e :: e in t.opcodes && IsMfspr(e))
    && (exists e :: e in t.opcodes && IsSubfzeo(e))
    && HasBranches(t)
    && |t.sprs| > 1 && t.sprs[1].number == 8
  }

  ghost predicate HasBranches(t: Table) {
    (exists e :: e in t.opcodes && IsBclr(e)) && (exists e :: e in t.opcodes && IsBcctr(e))
  }

  lemma PartsHaveBranches(t: Table)
    requires HasParts(t.opcodes)
    ensures HasBranches(t)
  {
    var rest2 :| Within(Part2(rest2), t.opcodes);
    BclrIn(t.opcodes, rest2);
    var rest3 :| Within(Part3(rest3), t.opcodes);
    BcctrIn(t.opcodes, rest3);
  }

  lemma PartsHaveLoads(rows: seq<Opcode>)
    requires HasParts(rows)
    ensures (exists e :: e in rows && IsOri(e)) && (exists e :: e in rows && IsLwz(e))
  {
    var rest4 :| Within(Part4(rest4), rows);
    OriIn(rows, rest4);
    var rest17 :| Within(Part17(rest17), rows);
    LwzIn(rows, rest17);
  }

  lemma PartsHaveSpecials(rows: seq<Opcode>)
    requires HasParts(rows)
    ensures (exists e :: e in rows && IsMfspr(e)) && (exists e :: e in rows && IsSubfzeo(e))
  {
    var rest10 :| Within(Part10(rest10), rows);
    MfsprIn(rows, rest10);
    var rest14 :| Within(Part14(rest14), rows);
    SubfzeoIn(rows, rest14);
  }

  lemma PartsHaveRows(t: Table)
    requires HasParts(t.opcodes) && |t.sprs| > 1 && t.sprs[1].number == 8
    ensures HasRows(t)
  {
    PartsHaveBranches(t);
    PartsHaveLoads(t.opcodes);
    PartsHaveSpecials(t.opcodes);
  }

  lemma LinkRegisterListed()
    ensures |SpecialRegisters()| > 1 && SpecialRegisters()[1].number == 8
  {
    assert Sprs1()[1].number == 8;
  }

  lemma ShippedRows()
    ensures HasRows(Shipped())
  {
    LinkRegisterListed();
    ShippedParts();
    PartsHaveRows(Shipped());
  }

  lemma ShippedParts()
    ensures HasParts(Shipped().opcodes)
  {
    OpcodeRowsOk([]);
  }

  /** What comes of typing back a word that was printed at the same address. */
  function TypedBack(t: Table, w: Word, a: Word): AsmResult
    requires TableOk(t)
  {
    Assemble(t, a, Instruction(t, w, a))
  }

  lemma OriExample(t: Table, w: Word, a: Word)
    requires TableOk(t) && OwnNames(t) && HasRows(t) && w / 0x400_0000 == 24
    ensures TypedBack(t, w, a) == AsmResult(w, NoError)
  {
    var e :| e in t.opcodes && IsOri(e);
    OriReadsBack(t, e, w, a);
  }

  lemma LwzExample(t: Table, w: Word, a: Word)
    requires TableOk(t) && OwnNames(t) && HasRows(t) && w / 0x400_0000 == 32
    ensures TypedBack(t, w, a).word == 0
  {
    var e :| e in t.opcodes && IsLwz(e);
    LwzRejected(t, e, w, a);
  }

  lemma MfsprExample(t: Table, w: Word, a: Word)
    requires TableOk(t) && OwnNames(t) && HasRows(t)
    requires w / 0x400_0000 == 31 && w % 2048 == 678 && (SprNumber(w) == 0 || SprNumber(w) == 8)
    ensures TypedBack(t, w, a).word == 0
  {
    var e :| e in t.opcodes && IsMfspr(e);
    assert t.sprs[1].number == 8;
    MfsprRejected(t, e, w, a);
  }

  /** An `mfspr` of LR, field 256, or of register 0. */
  predicate LinkOrZero(w: Word) {
    w / 0x400_0000 == 31 && w % 2048 == 678 && (w / 2048 % 1024 == 256 || w / 2048 % 1024 == 0)
  }

  lemma MfsprFromRows(t: Table, w: Word, a: Word)
    requires TableOk(t) && OwnNames(t) && HasRows(t)
    requires LinkOrZero(w)
    ensures TypedBack(t, w, a).word == 0
  {
    assert SprNumber(w) == 0 || SprNumber(w) == 8 by { ExampleNumbers(w); }
    MfsprExample(t, w, a);
  }

  lemma SubfzeoExample(t: Table, w: Word, a: Word)
    requires TableOk(t) && HasRows(t) && w / 0x400_0000 == 31 && w % 2048 == 1425
    ensures TypedBack(t, w, a) == AsmResult(0, BadOpcode)
  {
    var e :| e in t.opcodes && IsSubfzeo(e);
    SubfzeoRejected(t, e, w, a);
  }

  /** What the shipped tables provide. */
  lemma ShippedReady()
    ensures TableOk(Shipped()) && OwnNames(Shipped()) && HasRows(Shipped())
  {
    ShippedTableOk();
    ShippedNames();
    ShippedRows();
  }

  /** As built, at every address: every `ori` is read back. */
  lemma ShippedOri(w: Word, a: Word)
    requires w / 0x400_0000 == 24
    ensures TableOk(Shipped()) && TypedBack(Shipped(), w, a) == AsmResult(w, NoError)
  {
    ShippedReady();
    OriExample(Shipped(), w, a);
  }

  /** No `lwz` is. */
  lemma ShippedLwz(w: Word, a: Word)
    requires w / 0x400_0000 == 32
    ensures TableOk(Shipped()) && TypedBack(Shipped(), w, a).word == 0
  {
    ShippedReady();
    LwzExample(Shipped(), w, a);
  }

  /** The texts of a load read as the fields of its word. */
  predicate LoadReadings(w: Word, x: string, d: string, b: string) {
    && "r" <= x && ReadNumber(x[1..]) == w / 0x20_0000 % 32
    && ReadNumber(d) == w % 0x8000
    && if w / 0x1_0000 % 32 == 0 then b == "0" else "r" <= b && ReadNumber(b[1..]) == w / 0x1_0000 % 32
  }

  /** How every `lwz` is listed: the column of the mnemonic, the register, the low 15 bits of the
      displacement in hexadecimal, and the base register in parentheses, 0 where there is none. */
  lemma LwzListed(t: Table, e: Opcode, w: Word, a: Word) returns (x: string, d: string, b: string)
    requires TableOk(t) && e in t.opcodes && IsLwz(e) && w / 0x400_0000 == 32
    ensures Instruction(t, w, a) == "lwz     " + (x + "," + (d + "(" + b + ")")) && LoadReadings(w, x, d, b)
  {
    var i := LwzDecodes(t, e, w);
    var fs := e.fields;
    LwzShape(e);
    x, d, b := LoadListed(t, w, a, i, e, fs[0], fs[1], fs[2]);
    LwzFields(fs[0], fs[1], fs[2], w);
    LwzColumn(e, x + "," + (d + "(" + b + ")"));
  }

  lemma LwzDecodes(t: Table, e: Opcode, w: Word) returns (i: nat)
    requires TableOk(t) && e in t.opcodes && IsLwz(e) && w / 0x400_0000 == 32
    ensures FirstMatch(t.opcodes, w) == Some(i) && e == t.opcodes[i]
  {
    LwzUnreadable(t, e, w);
    i := Decodes(t, e, w);
  }

  lemma LwzShape(e: Opcode)
    requires IsLwz(e)
    ensures |e.fields| == 3 && LoadOperands(e, e.fields[0], e.fields[1], e.fields[2]) && |e.name| <= 7
    ensures e.fields[0].field != 20 && e.fields[2].field == 20
  {
  }

  lemma LwzColumn(e: Opcode, rest: string)
    requires IsLwz(e)
    ensures Padded(e.name) + rest == "lwz     " + rest
  {
    MnemonicColumns(e.name);
  }

  lemma LwzFields(x: Operand, d: Operand, b: Operand, w: Word)
    requires x == rD && d == Disp && b == rA
    ensures Extract(w, x.bits, x.shift) == w / 0x20_0000 % 32 && Extract(w, b.bits, b.shift) == w / 0x1_0000 % 32
    ensures Extract(w, d.bits, d.shift) % 0x1_0000 == w % 0x8000
  {
    Powers();
    ShlProduct(5, 10);
    ExtractArithmetic(w, x.bits, x.shift);
    ExtractArithmetic(w, b.bits, b.shift);
    ExtractArithmetic(w, d.bits, d.shift);
  }

  /** So it is as built. */
  lemma ShippedLwzListed(w: Word, a: Word) returns (x: string, d: string, b: string)
    requires w / 0x400_0000 == 32
    ensures TableOk(Shipped()) && Instruction(Shipped(), w, a) == "lwz     " + (x + "," + (d + "(" + b + ")"))
    ensures LoadReadings(w, x, d, b)
  {
    ShippedReady();
    x, d, b := LwzFromRows(Shipped(), w, a);
  }

  lemma LwzFromRows(t: Table, w: Word, a: Word) returns (x: string, d: string, b: string)
    requires TableOk(t) && HasRows(t) && w / 0x400_0000 == 32
    ensures Instruction(t, w, a) == "lwz     " + (x + "," + (d + "(" + b + ")")) && LoadReadings(w, x, d, b)
  {
    var e :| e in t.opcodes && IsLwz(e);
    x, d, b := LwzListed(t, e, w, a);
  }

  /** No `mfspr` of LR, field 256, or of register 0 is. */
  lemma ShippedMfspr(w: Word, a: Word)
    requires LinkOrZero(w)
    ensures TableOk(Shipped()) && TypedBack(Shipped(), w, a).word == 0
  {
    ShippedReady();
    MfsprFromRows(Shipped(), w, a);
  }

  /** Every `subfzeo.` comes back as an unknown mnemonic. */
  lemma ShippedSubfzeo(w: Word, a: Word)
    requires w / 0x400_0000 == 31 && w % 2048 == 1425
    ensures TableOk(Shipped()) && TypedBack(Shipped(), w, a) == AsmResult(0, BadOpcode)
  {
    ShippedReady();
    SubfzeoExample(Shipped(), w, a);
  }

  /** The two halves of the register number are swapped in the field: 256 is LR, register 8. */
  lemma ExampleNumbers(w: Word)
    ensures w / 2048 % 1024 == 256 ==> SprNumber(w) == 8
    ensures w / 2048 % 1024 == 0 ==> SprNumber(w) == 0
  {
    var x := w / 2048 % 1024;
    assert Extract(w, 10, 11) == x by {
      ExtractArithmetic(w, 10, 11);
      Powers();
    }
    SwapArithmetic(x);
  }

  // ----- single words -----

  /** `ori r3,r4,5` */
  lemma OriWord(w: Word, a: Word)
    requires w == 0x6083_0005
    ensures TableOk(Shipped()) && TypedBack(Shipped(), w, a) == AsmResult(w, NoError)
  {
    ShippedOri(w, a);
  }

  /** `lwz r3,4(r1)` */
  lemma LwzWord(w: Word, a: Word)
    requires w == 0x8061_0004
    ensures TableOk(Shipped()) && TypedBack(Shipped(), w, a).word == 0
  {
    ShippedLwz(w, a);
  }

  /** `mfspr` to r3 of LR */
  lemma MflrWord(w: Word, a: Word)
    requires w == 0x7C68_02A6
    ensures TableOk(Shipped()) && TypedBack(Shipped(), w, a).word == 0
  {
    ShippedMfspr(w, a);
  }

  /** `mfspr` to r3 of register 0 */
  lemma MfsprZeroWord(w: Word, a: Word)
    requires w == 0x7C60_02A6
    ensures TableOk(Shipped()) && TypedBack(Shipped(), w, a).word == 0
  {
    ShippedMfspr(w, a);
  }

  /** `subfzeo. r3,r4` */
  lemma SubfzeoWord(w: Word, a: Word)
    requires w == 0x7C64_0591
    ensures TableOk(Shipped()) && TypedBack(Shipped(), w, a) == AsmResult(0, BadOpcode)
  {
    ShippedSubfzeo(w, a);
  }

  // ----- a negative displacement -----

  /** A typed line of a mnemonic and operands, as the assembler sees it. */
  lemma TypedLine(t: Table, e: Opcode, name: string, pieces: seq<string>, text: string)
    requires TableOk(t) && OwnNames(t) && e in t.opcodes && e.name == name && NameOk(name)
    requires pieces != [] && Wordlike(pieces) && text == name + (" " + Join(pieces))
    ensures NamedRow(t, text).Some? && t.opcodes[NamedRow(t, text).value] == e
    ensures forall k: nat :: WordAt(NextToken(text).rest, k) == if k < |pieces| then pieces[k] else []
  {
    TokenReadBack(name, " " + Join(pieces));
    var i :| 0 <= i < |t.opcodes| && t.opcodes[i] == e;
    assert FirstNamed(t.opcodes, t.opcodes[i].name) == Some(i);
    forall k: nat ensures WordAt(NextToken(text).rest, k) == if k < |pieces| then pieces[k] else [] {
      WordsAfterBlanks(" ", Join(pieces), k);
      WordsOfJoin(pieces, k);
    }
  }

  lemma SmallNumbers()
    ensures ReadNumber("3") == 3 && ReadNumber("1") == 1
  {
    assert "3"[1..] == [] && "1"[1..] == [];
    assert ReadDigits("3", 10, 0) == ReadDigits([], 10, 3) && ReadDigits("1", 10, 0) == ReadDigits([], 10, 1);
  }

  lemma RegisterData(t: Table, a: Word, e: Opcode, o: Operand, txt: string, digit: string)
    requires OperandOk(o) && o.kind.Reg? && txt == "r" + digit && ReadNumber(digit) <= 31
    ensures ErrorOf(t, a, e, o, txt) == NoError
  {
    assert txt[1..] == digit;
  }

  /** `lwz r3,-4,r1` is accepted, and its displacement field holds 0x7ffc. */
  lemma NegativeLwz(t: Table, e: Opcode, a: Word, text: string)
    requires TableOk(t) && OwnNames(t) && e in t.opcodes && IsLwz(e) && text == "lwz r3,-4,r1"
    ensures Accepts(t, a, text) && Extract(Assemble(t, a, text).word, 15, 0) == 0x7FFC
  {
    LwzOk(t, e);
    NegativeWords(t, e, text);
    var v := NegativeOperands(t, e, a, NextToken(text).rest);
    FieldOfLine(t, e, a, text, 1, v);
  }

  lemma NegativeWords(t: Table, e: Opcode, text: string)
    requires TableOk(t) && OwnNames(t) && e in t.opcodes && e.name == "lwz" && text == "lwz r3,-4,r1"
    ensures NamedRow(t, text).Some? && t.opcodes[NamedRow(t, text).value] == e
    ensures var rest := NextToken(text).rest;
            WordAt(rest, 0) == "r3" && WordAt(rest, 1) == "-4" && WordAt(rest, 2) == "r1"
  {
    var pieces := ["r3", "-4", "r1"];
    LwzOk(t, e);
    NegativeText(text, pieces);
    TypedLine(t, e, e.name, pieces, text);
  }

  lemma LwzOk(t: Table, e: Opcode)
    requires TableOk(t) && e in t.opcodes
    ensures EntryOk(e)
  {
  }

  /** A field of an accepted line holds what its operand means. */
  lemma FieldOfLine(t: Table, e: Opcode, a: Word, text: string, k: nat, v: nat)
    requires TableOk(t) && NamedRow(t, text).Some? && t.opcodes[NamedRow(t, text).value] == e && k < |e.fields|
    requires EntryOk(e) && NoErrors(t, a, e, e.fields, NextToken(text).rest, |e.fields|)
    requires FieldMeaning(t, a, e, NextToken(text).rest, k) == v
    ensures Accepts(t, a, text)
    ensures Extract(Assemble(t, a, text).word, e.fields[k].bits, e.fields[k].shift) == v
  {
    AcceptedLine(t, a, text);
    OperandValueAt(e.fields, Assemble(t, a, text).word, k);
  }

  lemma NegativeText(text: string, pieces: seq<string>)
    requires text == "lwz r3,-4,r1" && pieces == ["r3", "-4", "r1"]
    ensures Wordlike(pieces) && text == "lwz" + (" " + Join(pieces))
  {
    assert pieces[1..] == ["-4", "r1"] && pieces[1..][1..] == ["r1"];
    assert Join(["r1"]) == "r1" && Join(["-4", "r1"]) == "-4,r1" && Join(pieces) == "r3,-4,r1";
  }

  /** Three operands: a register, an offset of 15 bits, a register. */
  predicate LoadShape(fs: seq<Operand>) {
    && |fs| == 3 && fs[0].kind.Reg? && fs[1].kind.Offset? && fs[2].kind.Reg?
    && fs[1].bits == 15 && OperandsOk(fs) && !fs[0].silent && !fs[1].silent && !fs[2].silent
  }

  lemma NegativeOperands(t: Table, e: Opcode, a: Word, rest: string) returns (v: nat)
    requires LoadShape(e.fields)
    requires WordAt(rest, 0) == "r3" && WordAt(rest, 1) == "-4" && WordAt(rest, 2) == "r1"
    ensures NoErrors(t, a, e, e.fields, rest, |e.fields|)
    ensures FieldMeaning(t, a, e, rest, 1) == v && v == 0x7FFC
  {
    RegisterField(t, a, e, rest, 0, "3");
    RegisterField(t, a, e, rest, 2, "1");
    v := DisplacementField(t, a, e, rest, 1, WordAt(rest, 1));
    OneMoreOperand(t, e, a, rest, 0, WordAt(rest, 0));
    OneMoreOperand(t, e, a, rest, 1, WordAt(rest, 1));
    OneMoreOperand(t, e, a, rest, 2, WordAt(rest, 2));
  }

  lemma OneMoreOperand(t: Table, e: Opcode, a: Word, rest: string, n: nat, word: string)
    requires OperandsOk(e.fields) && n < |e.fields| && NoErrors(t, a, e, e.fields, rest, n)
    requires word == WordAt(rest, n) && ErrorOf(t, a, e, e.fields[n], word) == NoError
    ensures NoErrors(t, a, e, e.fields, rest, n + 1)
  {
    forall k | 0 <= k < n + 1 && !e.fields[k].silent
      ensures ErrorOf(t, a, e, e.fields[k], WordAt(rest, k)) == NoError
    {
      if k == n {
        assert WordAt(rest, k) == word;
      }
    }
  }

  lemma RegisterField(t: Table, a: Word, e: Opcode, rest: string, k: nat, digit: string)
    requires k < |e.fields| && OperandOk(e.fields[k]) && e.fields[k].kind.Reg?
    requires WordAt(rest, k) == "r" + digit && (digit == "3" || digit == "1")
    ensures ErrorOf(t, a, e, e.fields[k], WordAt(rest, k)) == NoError
  {
    SmallNumbers();
    RegisterData(t, a, e, e.fields[k], WordAt(rest, k), digit);
  }

  lemma DisplacementField(t: Table, a: Word, e: Opcode, rest: string, k: nat, word: string) returns (v: nat)
    requires k < |e.fields| && OperandOk(e.fields[k]) && e.fields[k].kind.Offset? && e.fields[k].bits == 15
    requires !e.fields[k].silent && word == WordAt(rest, k) && word == "-4"
    ensures ErrorOf(t, a, e, e.fields[k], word) == NoError
    ensures FieldMeaning(t, a, e, rest, k) == v && v == 0x7FFC
  {
    var n := ReadNumber(word);
    v := And(n, Ones(e.fields[k].bits));
    FieldOfOffset(t, a, e, rest, k, word, n);
    SignLost(n, e.fields[k].bits);
  }

  lemma FieldOfOffset(t: Table, a: Word, e: Opcode, rest: string, k: nat, word: string, n: Word)
    requires k < |e.fields| && OperandOk(e.fields[k]) && e.fields[k].kind.Offset? && !e.fields[k].silent
    requires word == WordAt(rest, k) && word != [] && n == ReadNumber(word)
    ensures ErrorOf(t, a, e, e.fields[k], word) == NoError
    ensures FieldMeaning(t, a, e, rest, k) == And(n, Ones(e.fields[k].bits))
  {
    OffsetNoError(t, a, e, e.fields[k], word);
    var data := ErrorFreeData(t, a, e, e.fields[k], word);
  }

  lemma OffsetNoError(t: Table, a: Word, e: Opcode, o: Operand, word: string)
    requires OperandOk(o) && o.kind.Offset? && word != []
    ensures ErrorOf(t, a, e, o, word) == NoError
  {
  }

  /** So it is in the debugger as built. */
  lemma ShippedNegative(a: Word, text: string)
    requires text == "lwz r3,-4,r1"
    ensures TableOk(Shipped())
    ensures Accepts(Shipped(), a, text) && Extract(Assemble(Shipped(), a, text).word, 15, 0) == 0x7FFC
  {
    ShippedReady();
    NegativeFromRows(Shipped(), a, text);
  }

  lemma NegativeFromRows(t: Table, a: Word, text: string)
    requires TableOk(t) && OwnNames(t) && HasRows(t) && text == "lwz r3,-4,r1"
    ensures Accepts(t, a, text) && Extract(Assemble(t, a, text).word, 15, 0) == 0x7FFC
  {
    var e :| e in t.opcodes && IsLwz(e);
    NegativeLwz(t, e, a, text);
  }

  // ----- mispredicted branches -----

  /** The table decodes every `bclr` and `bcctr` that does not link. */
  lemma RegisterBranchDecodes(t: Table, w: Word)
    requires HasBranches(t) && w / 0x400_0000 == 19 && (w % 2048 == 32 || w % 2048 == 1056)
    ensures FirstMatch(t.opcodes, w).Some?
  {
    if w % 2048 == 32 {
      var e :| e in t.opcodes && IsBclr(e);
      FoundByMatch(t, e, w);
    } else {
      var e :| e in t.opcodes && IsBcctr(e);
      FoundByMatch(t, e, w);
    }
  }

  lemma FoundByMatch(t: Table, e: Opcode, w: Word)
    requires e in t.opcodes && w / 0x400_0000 == 19
    requires e.mask == XL_MASK && e.opcode == 19 * 0x400_0000 + w % 2048
    ensures FirstMatch(t.opcodes, w).Some?
  {
    XMatches(w, w % 2048);
    var i :| 0 <= i < |t.opcodes| && t.opcodes[i] == e;
    assert Matches(t.opcodes[i], w);
  }

  lemma IgnoredFromRows(t: Table, mem: Word -> Word, r: Regs, w: Word)
    requires HasBranches(t) && r.nip % 4 == 0 && r.link == Wrap(r.nip + 8)
    requires w == mem(r.nip) && w == 0x4FE0_0020
    ensures NextAddress(t, mem, r, false) == Some(Following(r.nip))
    ensures Nia(FormOf(w), r.nip, r) == Wrap(r.nip + 8) != Following(r.nip)
  {
    RegisterBranchDecodes(t, w);
    IgnoredBitsMatter(t, mem, r);
  }

  lemma MisalignedFromRows(t: Table, mem: Word -> Word, r: Regs, w: Word)
    requires HasBranches(t) && r.nip % 4 == 0 && w == mem(r.nip)
    requires (w == 0x4E80_0020 && r.link == 0x1002) || (w == 0x4E80_0420 && r.ctr == 0x1002)
    ensures NextAddress(t, mem, r, false) == Some(0x1002)
    ensures Nia(FormOf(w), r.nip, r) == 0x1000
  {
    RegisterBranchDecodes(t, w);
    MisalignedRegister(t, mem, r);
  }

  /** As built, 0x4fe00020 at the program counter, with LR two instructions on: stepping sets the next
      instruction, the machine goes to LR. */
  lemma ShippedIgnoredBits(t: Table, mem: Word -> Word, r: Regs)
    requires t == Shipped() && r.nip % 4 == 0 && mem(r.nip) == 0x4FE0_0020 && r.link == Wrap(r.nip + 8)
    ensures NextAddress(t, mem, r, false) == Some(Following(r.nip))
    ensures Nia(FormOf(mem(r.nip)), r.nip, r) == Wrap(r.nip + 8) != Following(r.nip)
  {
    ShippedRows();
    IgnoredFromRows(t, mem, r, mem(r.nip));
  }

  /** As built, 0x4e800020 with LR 0x1002 or 0x4e800420 with CTR 0x1002: stepping sets 0x1002, the machine
      goes to 0x1000. */
  lemma ShippedMisaligned(t: Table, mem: Word -> Word, r: Regs)
    requires t == Shipped() && r.nip % 4 == 0
    requires (mem(r.nip) == 0x4E80_0020 && r.link == 0x1002) || (mem(r.nip) == 0x4E80_0420 && r.ctr == 0x1002)
    ensures NextAddress(t, mem, r, false) == Some(0x1002)
    ensures Nia(FormOf(mem(r.nip)), r.nip, r) == 0x1000
  {
    ShippedRows();
    MisalignedFromRows(t, mem, r, mem(r.nip));
  }
}
