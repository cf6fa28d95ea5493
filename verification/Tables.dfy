/**
  The opcode, operand and SPR tables that drive the assembler and the disassembler, what a
  well-formed table is, and the searches over it.

  An opcode row lists its operands by value: the index into `operands[]` is already resolved.  The
  hint bits of an operand become `silent` and `kind`, the first branch the hint selects.
 */
module Tables {
  import opened Wrappers
  import opened Words
  import opened Text

  datatype Kind = Addr | Reg | Spr | Tbr | Offset | Plain

  datatype Operand = Operand(field: nat, bits: nat, shift: nat, kind: Kind, silent: bool)

  datatype Opcode = Opcode(opcode: Word, mask: Word, fields: seq<Operand>, name: string,
                           relative: bool, ra0: bool)

  datatype SprInfo = SprInfo(number: nat, name: string)

  datatype Table = Table(opcodes: seq<Opcode>, sprs: seq<SprInfo>)

  const O_RA: nat := 20

  /** The bits of the primary opcode. */
  const PRIMARY: nat := FieldBits(6, 26)

  predicate Matches(e: Opcode, w: Word) {
    And(w, e.mask) == e.opcode
  }

  /** The instruction bits of the operands that are written out. */
  function VisibleBits(fs: seq<Operand>): nat {
    if fs == [] then 0
    else if fs[0].silent then VisibleBits(fs[1..])
    else Or(FieldBits(fs[0].bits, fs[0].shift), VisibleBits(fs[1..]))
  }

  // ----- well-formed tables -----

  /** A field narrower than a word; a branch field leaves room for its two low zero bits. */
  predicate OperandOk(o: Operand) {
    1 <= o.bits <= 31 && o.bits + o.shift <= 32 && (o.kind.Addr? ==> o.bits <= 30)
  }

  predicate Apart(o: Operand, p: Operand) {
    o.shift + o.bits <= p.shift || p.shift + p.bits <= o.shift
  }

  /** The operands that are written out are the first ones. */
  predicate SilentLast(fs: seq<Operand>) {
    forall i, j :: 0 <= i < j < |fs| && fs[i].silent ==> fs[j].silent
  }

  predicate VisibleApart(fs: seq<Operand>) {
    forall i, j :: 0 <= i < j < |fs| && !fs[i].silent && !fs[j].silent ==> Apart(fs[i], fs[j])
  }

  /** An offset is followed by the register it is added to. */
  predicate OffsetsPaired(fs: seq<Operand>) {
    forall i :: 0 <= i < |fs| && !fs[i].silent && fs[i].kind.Offset? ==>
      i + 1 < |fs| && !fs[i + 1].silent && fs[i + 1].kind.Reg?
  }

  predicate OperandsOk(fs: seq<Operand>) {
    forall i :: 0 <= i < |fs| ==> OperandOk(fs[i])
  }

  predicate FieldsOk(fs: seq<Operand>, mask: Word) {
    && OperandsOk(fs)
    && (forall i :: 0 <= i < |fs| ==>
          And(FieldBits(fs[i].bits, fs[i].shift), mask)
          == if fs[i].silent then FieldBits(fs[i].bits, fs[i].shift) else 0)
    && (forall i, j :: 0 <= i < j < |fs| ==> fs[i].field != fs[j].field)
    && VisibleApart(fs) && SilentLast(fs) && OffsetsPaired(fs)
  }

  predicate NameOk(name: string) {
    1 <= |name| <= 8 && AllWordChars(name) && !HasUpper(name) && 'a' <= name[0] <= 'z'
  }

  predicate EntryOk(e: Opcode) {
    && e.opcode != 0
    && And(e.opcode, e.mask) == e.opcode
    && And(e.mask, PRIMARY) == PRIMARY
    && FieldsOk(e.fields, e.mask)
    && NameOk(e.name)
  }

  /** Names of special registers are written with capitals and do not look like numbers. */
  predicate SprOk(s: SprInfo) {
    s.name != [] && AllWordChars(s.name) && !IsDigit(s.name[0]) && HasUpper(s.name)
  }

  function Primary(w: Word): nat {
    Shr(w, 26)
  }

  /** Rows in strictly increasing opcode order, one mask for each primary opcode. */
  predicate Ordered(ops: seq<Opcode>) {
    && (forall i, j :: 0 <= i < j < |ops| ==> ops[i].opcode < ops[j].opcode)
    && (forall i, j :: 0 <= i < j < |ops| && Primary(ops[i].opcode) == Primary(ops[j].opcode) ==>
          ops[i].mask == ops[j].mask)
  }

  predicate TableOk(t: Table) {
    && (forall i :: 0 <= i < |t.opcodes| ==> EntryOk(t.opcodes[i]))
    && (forall i :: 0 <= i < |t.sprs| ==> SprOk(t.sprs[i]))
    && Ordered(t.opcodes)
  }

  // ----- find_opcode -----

  /** The first row that a word matches, by linear scan. */
  function FirstMatch(ops: seq<Opcode>, w: Word): (r: Option<nat>)
    ensures r.Some? ==> r.value < |ops| && Matches(ops[r.value], w)
    ensures forall i :: 0 <= i < |ops| && (r.None? || i < r.value) ==> !Matches(ops[i], w)
  {
    if ops == [] then None
    else if Matches(ops[0], w) then Some(0)
    else match FirstMatch(ops[1..], w) case None => None case Some(i) => Some(i + 1)
  }

  /** Every row sends the search for a word toward the rows the word matches. */
  ghost predicate Steers(ops: seq<Opcode>, w: Word) {
    forall i, j :: 0 <= i < |ops| && 0 <= j < |ops| && Matches(ops[j], w) ==>
      && (i < j ==> And(w, ops[i].mask) > ops[i].opcode)
      && (i > j ==> And(w, ops[i].mask) < ops[i].opcode)
  }

  /** `find_opcode`, for any table: the masked binary search is the linear scan on every word that
      the table steers, and never returns a row that does not match. */
  method FindOpcode(ops: seq<Opcode>, instr: Word) returns (r: Option<nat>)
    ensures r.Some? ==> r.value < |ops| && Matches(ops[r.value], instr)
    ensures Steers(ops, instr) ==> r == FirstMatch(ops, instr)
  {
    var top, bottom := 0, |ops| - 1;
    while top <= bottom
      invariant 0 <= top <= bottom + 1 <= |ops|
      invariant Steers(ops, instr) ==>
                  forall j :: 0 <= j < |ops| && Matches(ops[j], instr) ==> top <= j <= bottom
      decreases bottom - top
    {
      var idx := (top + bottom) / 2;
      if And(instr, ops[idx].mask) < ops[idx].opcode {
        bottom := idx - 1;
      } else if And(instr, ops[idx].mask) > ops[idx].opcode {
        top := idx + 1;
      } else {
        return Some(idx);
      }
    }
    return None;
  }

  lemma PrimaryOfMasked(w: Word, m: Word)
    requires And(m, PRIMARY) == PRIMARY
    ensures And(w, m) < 0x1_0000_0000 && Primary(And(w, m)) == Primary(w)
  {
    AndBounded(w, m);
    HighBitsKept(w, m, 6, 26);
  }

  /** Ordered rows whose masks hold the primary opcode steer every word: `find_opcode` is a linear scan,
      whatever the names and operands. */
  lemma OrderedSteers(ops: seq<Opcode>, w: Word)
    requires Ordered(ops) && forall i :: 0 <= i < |ops| ==> And(ops[i].mask, PRIMARY) == PRIMARY
    ensures Steers(ops, w)
  {
    forall i, j | 0 <= i < |ops| && 0 <= j < |ops| && Matches(ops[j], w)
      ensures i < j ==> And(w, ops[i].mask) > ops[i].opcode
      ensures i > j ==> And(w, ops[i].mask) < ops[i].opcode
    {
      PrimaryOfMasked(w, ops[i].mask);
      PrimaryOfMasked(w, ops[j].mask);
      if i < j {
        ShrMonotone(ops[i].opcode, ops[j].opcode, 26);
        if And(w, ops[i].mask) < ops[i].opcode {
          ShrMonotone(And(w, ops[i].mask), ops[i].opcode, 26);
        }
      } else if i > j {
        ShrMonotone(ops[j].opcode, ops[i].opcode, 26);
        if And(w, ops[i].mask) > ops[i].opcode {
          ShrMonotone(ops[i].opcode, And(w, ops[i].mask), 26);
        }
      }
    }
  }

  lemma TableSteers(t: Table, w: Word)
    requires TableOk(t)
    ensures Steers(t.opcodes, w)
  {
    forall i | 0 <= i < |t.opcodes| ensures And(t.opcodes[i].mask, PRIMARY) == PRIMARY {
      assert EntryOk(t.opcodes[i]);
    }
    OrderedSteers(t.opcodes, w);
  }

  lemma UniqueMatch(t: Table, w: Word, i: nat, j: nat)
    requires TableOk(t) && i < |t.opcodes| && j < |t.opcodes|
    requires Matches(t.opcodes[i], w) && Matches(t.opcodes[j], w)
    ensures i == j && FirstMatch(t.opcodes, w) == Some(i)
  {
    TableSteers(t, w);
  }

  // ----- find_opcode_by_name -----

  function FirstNamed(ops: seq<Opcode>, name: string): (r: Option<nat>)
    ensures r.Some? ==> r.value < |ops| && ops[r.value].name == name
    ensures forall i :: 0 <= i < |ops| && (r.None? || i < r.value) ==> ops[i].name != name
  {
    if ops == [] then None
    else if ops[0].name == name then Some(0)
    else match FirstNamed(ops[1..], name) case None => None case Some(i) => Some(i + 1)
  }

  method FindOpcodeByName(ops: seq<Opcode>, name: string) returns (r: Option<nat>)
    ensures r == FirstNamed(ops, Lowered(name))
  {
    var scratch := new char[|name|](i requires 0 <= i < |name| => name[i]);
    assert scratch[..] == name;
    DownString(scratch);
    for idx := 0 to |ops|
      invariant forall i :: 0 <= i < idx ==> ops[i].name != scratch[..]
      invariant scratch[..] == Lowered(name)
    {
      if ops[idx].name == scratch[..] {
        return Some(idx);
      }
    }
    return None;
  }

  // ----- get_operand_value -----

  function OperandValue(fs: seq<Operand>, instr: Word, field: nat): Option<nat> {
    if fs == [] then None
    else if fs[0].field == field then Some(Extract(instr, fs[0].bits, fs[0].shift))
    else OperandValue(fs[1..], instr, field)
  }

  method GetOperandValue(e: Opcode, instr: Word, field: nat) returns (r: Option<nat>)
    ensures r == OperandValue(e.fields, instr, field)
  {
    for i := 0 to |e.fields|
      invariant OperandValue(e.fields, instr, field) == OperandValue(e.fields[i..], instr, field)
    {
      assert e.fields[i..][1..] == e.fields[i + 1..];
      if e.fields[i].field == field {
        return Some(Extract(instr, e.fields[i].bits, e.fields[i].shift));
      }
    }
    return None;
  }

  /** When field identifiers are distinct, the search returns that very field. */
  lemma {:induction false} OperandValueAt(fs: seq<Operand>, instr: Word, k: nat)
    requires k < |fs|
    requires forall i, j :: 0 <= i < j < |fs| ==> fs[i].field != fs[j].field
    ensures OperandValue(fs, instr, fs[k].field) == Some(Extract(instr, fs[k].bits, fs[k].shift))
  {
    if k != 0 {
      OperandValueAt(fs[1..], instr, k - 1);
    }
  }
}
