/**
  A table of opcodes written down by instruction form, a check of its rows one after the other, and the
  proof that rows which pass the check make a well-formed table.
 */
module TableCheck {
  import opened Words
  import opened Text
  import opened Tables
  import opened Branch

  // ----- rows -----

  datatype List<T> = Nil | Cons(head: T, tail: List<T>)

  /** A row of one of the forms.  `low` are the bits below the primary opcode that the form fixes. */
  datatype Row =
    | Row(primary: nat, low: nat, fields: List<Operand>, name: string, ra0: bool)
    | Jump(aa: nat, lk: nat, name: string)
    | JumpIf(aa: nat, lk: nat, name: string)
    | JumpTo(xo: nat, lk: nat, name: string)
    | SystemCall(name: string)

  function L1(a: Operand): List<Operand> {
    Cons(a, Nil)
  }

  function L2(a: Operand, b: Operand): List<Operand> {
    Cons(a, L1(b))
  }

  function L3(a: Operand, b: Operand, c: Operand): List<Operand> {
    Cons(a, L2(b, c))
  }

  function L4(a: Operand, b: Operand, c: Operand, d: Operand): List<Operand> {
    Cons(a, L3(b, c, d))
  }

  function L5(a: Operand, b: Operand, c: Operand, d: Operand, e: Operand): List<Operand> {
    Cons(a, L4(b, c, d, e))
  }

  function L6(a: Operand, b: Operand, c: Operand, d: Operand, e: Operand, f: Operand): List<Operand> {
    Cons(a, L5(b, c, d, e, f))
  }

  function D(primary: nat, fields: List<Operand>, name: string, ra0: bool): Row {
    Row(primary, 0, fields, name, ra0)
  }

  function M(primary: nat, rc: nat, fields: List<Operand>, name: string): Row {
    Row(primary, rc, fields, name, false)
  }

  /** The X, XL and XFX forms. */
  function X(primary: nat, xo: nat, rc: nat, fields: List<Operand>, name: string, ra0: bool): Row {
    Row(primary, 2 * xo + rc, fields, name, ra0)
  }

  function XO(primary: nat, xo: nat, oe: nat, rc: nat, fields: List<Operand>, name: string): Row {
    X(primary, 512 * oe + xo, rc, fields, name, false)
  }

  // ----- the check -----

  /** How many low bits the mask of a row holds, besides the primary opcode. */
  function Width(primary: nat): nat {
    if primary == 19 || primary == 31 then 11 else if 20 <= primary <= 23 then 1 else 0
  }

  /** Two to that power. */
  function Limit(primary: nat): nat {
    if primary == 19 || primary == 31 then 2048 else if 20 <= primary <= 23 then 2 else 1
  }

  /** A silent operand lies in the low bits of the mask; a written one between them and the primary opcode. */
  predicate FieldFits(o: Operand, n: nat) {
    OperandOk(o) && if o.silent then o.bits + o.shift <= n else n <= o.shift && o.bits + o.shift <= 26
  }

  predicate Clear(o: Operand, rest: List<Operand>) {
    rest.Cons? ==>
      && o.field != rest.head.field
      && (o.silent ==> rest.head.silent)
      && (o.silent || rest.head.silent || Apart(o, rest.head))
      && Clear(o, rest.tail)
  }

  predicate Fits(fields: List<Operand>, n: nat) {
    fields.Cons? ==>
      && FieldFits(fields.head, n)
      && Clear(fields.head, fields.tail)
      && (fields.head.kind.Offset? ==>
            fields.tail.Cons? && !fields.tail.head.silent && fields.tail.head.kind.Reg?)
      && Fits(fields.tail, n)
  }

  predicate RowFits(r: Row) {
    match r
    case Row(primary, low, fields, _, _) =>
      && 0 < primary < 64 && !(16 <= primary <= 18) && low < Limit(primary)
      && !(primary == 19 && (32 <= low <= 33 || 1056 <= low <= 1057))
      && Fits(fields, Width(primary))
    case Jump(aa, lk, _) => aa < 2 && lk < 2
    case JumpIf(aa, lk, _) => aa < 2 && lk < 2
    case JumpTo(xo, lk, _) => xo < 1024 && lk < 2
    case SystemCall(_) => true
  }

  /** The opcode of the row. */
  function Code(r: Row): nat {
    match r
    case Row(primary, low, _, _, _) => primary * 0x400_0000 + low
    case Jump(aa, lk, _) => I_OPCODE + 2 * aa + lk
    case JumpIf(aa, lk, _) => B_OPCODE + 2 * aa + lk
    case JumpTo(xo, lk, _) => 19 * 0x400_0000 + 2 * xo + lk
    case SystemCall(_) => 17 * 0x400_0000 + 2
  }

  /** Rows that fit, in increasing order, with opcodes from `lo` up to but not including `hi`. */
  predicate Checked(rows: List<Row>, lo: nat, hi: nat) {
    match rows
    case Nil => lo <= hi
    case Cons(r, tail) => lo <= Code(r) && RowFits(r) && Checked(tail, Code(r) + 1, hi)
  }

  predicate Letters(name: string) {
    && 1 <= |name| <= 8 && 'a' <= name[0] <= 'z'
    && forall i :: 0 <= i < |name| ==> 'a' <= name[i] <= 'z' || name[i] == '.'
  }

  predicate Named(rows: List<Row>) {
    rows.Cons? ==> Letters(rows.head.name) && Named(rows.tail)
  }

  predicate Capitals(name: string) {
    && name != [] && 'A' <= name[0] <= 'Z'
    && forall i :: 0 <= i < |name| ==> 'A' <= name[i] <= 'Z' || '0' <= name[i] <= '9' || name[i] == '_'
  }

  predicate AllCapitals(sprs: seq<SprInfo>) {
    forall i :: 0 <= i < |sprs| ==> Capitals(sprs[i].name)
  }

  // ----- what the check gives -----

  const D_MASK: Word := 0xFC00_0000
  const M_MASK: Word := 0xFC00_0001
  const SC_MASK: Word := 0xFC00_0002

  /** The mask of every row with this primary opcode. */
  function MaskFor(primary: nat): Word {
    if primary == 16 || primary == 18 then I_MASK
    else if primary == 17 then SC_MASK
    else if primary == 19 || primary == 31 then XL_MASK
    else if 20 <= primary <= 23 then M_MASK
    else D_MASK
  }

  function Items(l: List<Operand>): seq<Operand> {
    match l
    case Nil => []
    case Cons(o, tail) => [o] + Items(tail)
  }

  /** The row as the searches see it. */
  function Entry(r: Row): Opcode {
    match r
    case Row(primary, low, fields, name, ra0) =>
      Opcode(Wrap(Code(r)), MaskFor(primary), Items(fields), name, false, ra0)
    case Jump(aa, lk, name) => Opcode(Wrap(Code(r)), I_MASK, [LI, AA, LK], name, aa == 0, false)
    case JumpIf(aa, lk, name) => Opcode(Wrap(Code(r)), I_MASK, [BO, BI, BD, AA, LK], name, aa == 0, false)
    case JumpTo(xo, lk, name) => Opcode(Wrap(Code(r)), XL_MASK, [BO, BI, LK], name, false, false)
    case SystemCall(name) => Opcode(Wrap(Code(r)), SC_MASK, [], name, false, false)
  }

  lemma ItemsFront(a: Operand, b: Operand, c: Operand, rest: List<Operand>)
    ensures Items(Cons(a, Cons(b, Cons(c, rest)))) == [a, b, c] + Items(rest)
  {
    assert Items(Cons(b, Cons(c, rest))) == [b] + ([c] + Items(rest));
  }

  /** The operands of a row are those written down, in that order. */
  lemma RowItems(a: Operand, b: Operand, c: Operand, d: Operand, e: Operand, f: Operand)
    ensures Items(L1(a)) == [a] && Items(L2(a, b)) == [a, b] && Items(L3(a, b, c)) == [a, b, c]
    ensures Items(L4(a, b, c, d)) == [a, b, c, d] && Items(L5(a, b, c, d, e)) == [a, b, c, d, e]
    ensures Items(L6(a, b, c, d, e, f)) == [a, b, c, d, e, f]
  {
    assert Items(L1(f)) == [f];
    assert Items(L2(e, f)) == [e] + Items(L1(f));
    ItemsFront(a, b, c, L3(d, e, f));
    ItemsFront(d, e, f, Nil);
    ItemsFront(a, b, c, L2(d, e));
    ItemsFront(a, b, c, L1(d));
    ItemsFront(a, b, c, Nil);
  }

  /** The bits that each form fixes, as numbers. */
  lemma FormCodes(i: nat, xo: nat, oe: nat, rc: nat, aa: nat, fields: List<Operand>, name: string)
    requires 0 < i < 64 && xo < 1024 && oe < 2 && rc < 2 && aa < 2
    ensures Entry(D(i, fields, name, true)).opcode == i * 0x400_0000
    ensures Entry(M(i, rc, fields, name)).opcode == i * 0x400_0000 + rc
    ensures Entry(X(i, xo, rc, fields, name, false)).opcode == i * 0x400_0000 + xo * 2 + rc
    ensures xo < 512 ==> Entry(XO(i, xo, oe, rc, fields, name)).opcode == i * 0x400_0000 + oe * 0x400 + xo * 2 + rc
    ensures Entry(Jump(aa, rc, name)).opcode == 18 * 0x400_0000 + aa * 2 + rc
    ensures Entry(JumpIf(aa, rc, name)).opcode == 16 * 0x400_0000 + aa * 2 + rc
    ensures Entry(JumpTo(xo, rc, name)).opcode == 19 * 0x400_0000 + xo * 2 + rc
  {
  }

  function Prepend(rows: List<Row>, rest: seq<Opcode>): seq<Opcode>
    decreases rows, |rest|
  {
    match rows
    case Nil => rest
    case Cons(r, tail) => [Entry(r)] + Prepend(tail, rest)
  }

  predicate Good(e: Opcode) {
    EntryOk(e) && BranchRowOk(e) && e.mask == MaskFor(Primary(e.opcode))
  }

  /** Good rows in increasing order, with opcodes from `lo` on. */
  predicate Run(rows: seq<Opcode>, lo: nat) {
    && (forall i :: 0 <= i < |rows| ==> Good(rows[i]) && lo <= rows[i].opcode)
    && (forall i, j :: 0 <= i < j < |rows| ==> rows[i].opcode < rows[j].opcode)
  }

  lemma LettersName(name: string)
    requires Letters(name)
    ensures NameOk(name)
  {
    forall c | c in name ensures IsWordChar(c) && !IsUpper(c) {
      var i :| 0 <= i < |name| && name[i] == c;
    }
  }

  lemma {:induction false} ClearAll(o: Operand, l: List<Operand>)
    requires Clear(o, l)
    ensures forall p :: p in Items(l) ==>
              o.field != p.field && (o.silent ==> p.silent) && (o.silent || p.silent || Apart(o, p))
  {
    if l.Cons? {
      ClearAll(o, l.tail);
    }
  }

  lemma FieldUnderMask(o: Operand, n: nat, mask: Word)
    requires FieldFits(o, n) && mask == Or(Ones(n), FieldBits(6, 26))
    ensures And(FieldBits(o.bits, o.shift), mask) == if o.silent then FieldBits(o.bits, o.shift) else 0
  {
    var f := FieldBits(o.bits, o.shift);
    forall i: nat ensures Bit(And(f, mask), i) == (o.silent && Bit(f, i)) {
      BitAnd(f, mask, i);
      BitOr(Ones(n), FieldBits(6, 26), i);
      BitOnes(n, i);
      BitField(6, 26, i);
      BitField(o.bits, o.shift, i);
    }
    if o.silent {
      SameBits(And(f, mask), f);
    } else {
      forall i: nat ensures Bit(And(f, mask), i) == Bit(0, i) {
        BitOfZero(i);
      }
      SameBits(And(f, mask), 0);
    }
  }

  lemma {:induction false} FitsIsOk(l: List<Operand>, n: nat, mask: Word)
    requires Fits(l, n) && mask == Or(Ones(n), FieldBits(6, 26))
    ensures FieldsOk(Items(l), mask)
  {
    if l.Cons? {
      FitsIsOk(l.tail, n, mask);
      ClearAll(l.head, l.tail);
      FieldUnderMask(l.head, n, mask);
      FieldsCons(l.head, Items(l.tail), mask);
    }
  }

  lemma FieldsCons(o: Operand, fs: seq<Operand>, mask: Word)
    requires FieldsOk(fs, mask) && OperandOk(o)
    requires And(FieldBits(o.bits, o.shift), mask) == if o.silent then FieldBits(o.bits, o.shift) else 0
    requires forall p :: p in fs ==>
               o.field != p.field && (o.silent ==> p.silent) && (o.silent || p.silent || Apart(o, p))
    requires o.kind.Offset? ==> fs != [] && !fs[0].silent && fs[0].kind.Reg?
    ensures FieldsOk([o] + fs, mask)
  {
    var all := [o] + fs;
    assert forall i :: 0 < i < |all| ==> all[i] == fs[i - 1] && all[i] in fs;
    forall i, j | 0 <= i < j < |all|
      ensures all[i].field != all[j].field && (all[i].silent ==> all[j].silent)
      ensures !all[i].silent && !all[j].silent ==> Apart(all[i], all[j])
    {
      if i > 0 {
        assert fs[i - 1].field != fs[j - 1].field;
      }
    }
    forall i | 0 <= i < |all| && !all[i].silent && all[i].kind.Offset?
      ensures i + 1 < |all| && !all[i + 1].silent && all[i + 1].kind.Reg?
    {
      if i > 0 {
        assert fs[i - 1].kind.Offset?;
      }
    }
  }

  lemma Masks()
    ensures D_MASK == Or(Ones(0), FieldBits(6, 26)) && M_MASK == Or(Ones(1), FieldBits(6, 26))
  {
    assert Ones(0) == 0 && Ones(1) == 1 && Ones(6) == 63;
    Powers();
    ShlMultiplies(63, 26);
    PowersGrow(0, 26);
    PowersGrow(1, 26);
    OrHigh(0, 63, 26);
    OrHigh(1, 63, 26);
  }

  lemma MaskHoldsPrimary(low: nat, mask: Word)
    requires mask == Or(low, FieldBits(6, 26))
    ensures And(mask, PRIMARY) == PRIMARY
  {
    forall i: nat ensures Bit(And(mask, PRIMARY), i) == Bit(PRIMARY, i) {
      BitAnd(mask, PRIMARY, i);
      BitOr(low, FieldBits(6, 26), i);
    }
    SameBits(And(mask, PRIMARY), PRIMARY);
  }

  /** A row whose mask holds the low `n` bits. */
  lemma LowMaskRow(e: Opcode, primary: nat, low: nat, n: nat)
    requires 0 < primary < 64 && n <= 11 && low < 2048
    requires e.opcode == primary * 0x400_0000 + low && low == e.opcode % Shl(1, n)
    requires e.mask == Or(Ones(n), FieldBits(6, 26)) && FieldsOk(e.fields, e.mask) && NameOk(e.name)
    ensures EntryOk(e) && Primary(e.opcode) == primary
  {
    assert e.opcode / 0x400_0000 == primary;
    MaskedArithmetic(e.opcode, e.mask, n);
    MaskHoldsPrimary(Ones(n), e.mask);
    PrimaryArithmetic(e.opcode);
  }

  lemma LowBitsOfCode(primary: nat, low: nat)
    requires primary < 64 && low < 2048
    ensures primary * 0x400_0000 + low < 0x1_0000_0000
    ensures (primary * 0x400_0000 + low) % 2048 == low
    ensures low < 4 ==> (primary * 0x400_0000 + low) % 4 == low
    ensures low < 2 ==> (primary * 0x400_0000 + low) % 2 == low
    ensures Shl(1, 0) == 1 && Shl(1, 1) == 2 && Shl(1, 2) == 4 && Shl(1, 11) == 2048
  {
    Powers();
  }

  lemma WidthMask(primary: nat)
    requires !(16 <= primary <= 18)
    ensures MaskFor(primary) == Or(Ones(Width(primary)), FieldBits(6, 26))
  {
    Masks();
    MaskValues();
  }

  lemma RowOpcode(primary: nat, low: nat)
    requires primary < 64 && low < Limit(primary)
    ensures var code := primary * 0x400_0000 + low;
            code < 0x1_0000_0000 && Width(primary) <= 11 && low == code % Shl(1, Width(primary))
  {
    LowBitsOfCode(primary, low);
  }

  lemma PlainRow(r: Row)
    requires r.Row? && RowFits(r) && Letters(r.name)
    ensures Good(Entry(r)) && Entry(r).opcode == Code(r)
  {
    LettersName(r.name);
    RowOpcode(r.primary, r.low);
    WidthMask(r.primary);
    FitsIsOk(r.fields, Width(r.primary), MaskFor(r.primary));
    LowMaskRow(Entry(r), r.primary, r.low, Width(r.primary));
    PlainBranch(r.primary, r.low);
  }

  /** No plain row is one of the branches. */
  lemma PlainBranch(primary: nat, low: nat)
    requires primary < 64 && low < 2048
    requires primary == 19 ==> !(32 <= low <= 33 || 1056 <= low <= 1057)
    ensures primary == 19 ==> (primary * 0x400_0000 + low) % 2048 / 2 !in {16, 528}
  {
    LowBitsOfCode(primary, low);
  }

  lemma JumpFields(mask: Word)
    requires mask == Or(Ones(2), FieldBits(6, 26))
    ensures FieldsOk([LI, AA, LK], mask)
  {
    var l := L3(LI, AA, LK);
    FitsIsOk(l, 2, mask);
    assert Items(l) == [LI, AA, LK];
  }

  lemma JumpIfFields(mask: Word)
    requires mask == Or(Ones(2), FieldBits(6, 26))
    ensures FieldsOk([BO, BI, BD, AA, LK], mask)
  {
    var l := L5(BO, BI, BD, AA, LK);
    FitsIsOk(l, 2, mask);
    assert Items(l) == [BO, BI, BD, AA, LK];
  }

  lemma JumpToFields(n: nat, mask: Word)
    requires n == 11 && mask == Or(Ones(n), FieldBits(6, 26))
    ensures FieldsOk([BO, BI, LK], mask)
  {
    var l := L3(BO, BI, LK);
    FitsIsOk(l, n, mask);
    assert Items(l) == [BO, BI, LK];
  }

  lemma JumpRow(r: Row)
    requires (r.Jump? || r.JumpIf?) && RowFits(r) && NameOk(r.name)
    requires FieldsOk(Entry(r).fields, I_MASK)
    ensures Good(Entry(r)) && Entry(r).opcode == Code(r)
  {
    var primary: nat, low: nat := if r.Jump? then 18 else 16, 2 * r.aa + r.lk;
    var e := Entry(r);
    assert e.opcode == primary * 0x400_0000 + low && low == e.opcode % 4 by { LowBitsOfCode(primary, low); }
    assert EntryOk(e) && Primary(e.opcode) == primary by {
      MaskValues();
      LowBitsOfCode(primary, low);
      LowMaskRow(e, primary, low, 2);
    }
  }

  lemma JumpToRow(r: Row)
    requires r.JumpTo? && RowFits(r) && NameOk(r.name)
    requires FieldsOk(Entry(r).fields, XL_MASK)
    ensures Good(Entry(r)) && Entry(r).opcode == Code(r)
  {
    var low: nat := 2 * r.xo + r.lk;
    LowBitsOfCode(19, low);
    JumpToEntry(Entry(r), low, XL_MASK, 11);
  }

  lemma JumpToEntry(e: Opcode, low: nat, mask: Word, n: nat)
    requires low < 2048 && e.opcode == 19 * 0x400_0000 + low && n == 11 && mask == XL_MASK
    requires e.mask == mask && e.fields == [BO, BI, LK] && FieldsOk(e.fields, mask) && NameOk(e.name)
    ensures Good(e)
  {
    assert mask == Or(Ones(n), FieldBits(6, 26)) by { MaskValues(); }
    assert Shl(1, n) == 2048 by { Powers(); }
    assert e.opcode % 2048 == low by { LowBitsOfCode(19, low); }
    LowMaskRow(e, 19, low, n);
  }

  lemma SystemCallRow(r: Row)
    requires r.SystemCall? && Letters(r.name)
    ensures Good(Entry(r)) && Entry(r).opcode == Code(r)
  {
    LettersName(r.name);
    SystemCallMask();
    SystemCallOk(Entry(r));
  }

  lemma SystemCallMask()
    ensures SC_MASK == Or(2, FieldBits(6, 26))
  {
    assert Ones(6) == 63;
    Powers();
    ShlMultiplies(63, 26);
    OrHigh(2, 63, 26);
  }

  lemma SystemCallOk(e: Opcode)
    requires e.opcode != 0 && e.opcode == e.opcode / 0x400_0000 * 0x400_0000 + e.opcode / 2 % 2 * 2
    requires e.mask == Or(2, FieldBits(6, 26))
    requires e.fields == [] && NameOk(e.name)
    ensures EntryOk(e) && Primary(e.opcode) == e.opcode / 0x400_0000
  {
    MaskHoldsPrimary(2, e.mask);
    PrimaryArithmetic(e.opcode);
    MaskedByTwo(e.opcode);
  }

  lemma MaskedByTwo(w: Word)
    ensures And(w, Or(2, FieldBits(6, 26))) == w / 0x400_0000 * 0x400_0000 + w / 2 % 2 * 2
  {
    var p, low, top := w / 0x400_0000, w / 2 % 2 * 2, FieldBits(6, 26);
    assert And(w, Or(2, top)) == Or(And(w, 2), And(w, top)) by { AndOrDistribute(w, 2, top); }
    assert And(w, 2) == low by { SmallAnd(w); }
    assert And(w, top) == Shl(p, 26) by { TopField(w); }
    assert Shl(p, 26) == p * 0x400_0000 by { Powers(); ShlMultiplies(p, 26); }
    assert low < Shl(1, 26) by { PowersGrow(2, 26); }
    OrHigh(low, p, 26);
  }

  lemma SmallAnd(w: nat)
    ensures And(w, 2) == w / 2 % 2 * 2
  {
    assert And(w / 2, 1) == w / 2 % 2;
  }

  /** A row put in front of a run. */
  lemma RunCons(e: Opcode, rows: seq<Opcode>, lo: nat)
    requires Good(e) && Run(rows, lo) && e.opcode < lo
    ensures Run([e] + rows, e.opcode)
  {
  }

  lemma RunFrom(rows: seq<Opcode>, lo: nat, hi: nat)
    requires Run(rows, hi) && lo <= hi
    ensures Run(rows, lo)
  {
  }

  lemma {:induction false} PrependRun(rows: List<Row>, lo: nat, hi: nat, rest: seq<Opcode>)
    requires Checked(rows, lo, hi) && Named(rows) && Run(rest, hi)
    ensures Run(Prepend(rows, rest), lo)
    decreases rows
  {
    match rows
    case Nil => RunFrom(rest, lo, hi);
    case Cons(r, tail) =>
      PrependRun(tail, Code(r) + 1, hi, rest);
      RowGood(r);
      RunCons(Entry(r), Prepend(tail, rest), Code(r) + 1);
      RunFrom([Entry(r)] + Prepend(tail, rest), lo, Code(r));
  }

  lemma RowGood(r: Row)
    requires RowFits(r) && Letters(r.name)
    ensures Good(Entry(r)) && Entry(r).opcode == Code(r)
  {
    if r.Row? {
      PlainRow(r);
    } else if r.SystemCall? {
      SystemCallRow(r);
    } else {
      LettersName(r.name);
      MaskValues();
      JumpFields(I_MASK);
      JumpIfFields(I_MASK);
      JumpToFields(11, XL_MASK);
      if r.JumpTo? {
        JumpToRow(r);
      } else {
        JumpRow(r);
      }
    }
  }

  // ----- which rows are there -----

  ghost predicate Within(a: seq<Opcode>, b: seq<Opcode>) {
    forall e :: e in a ==> e in b
  }

  lemma WithinTrans(a: seq<Opcode>, b: seq<Opcode>, c: seq<Opcode>)
    requires Within(a, b) && Within(b, c)
    ensures Within(a, c)
  {
  }

  predicate Has(rows: List<Row>, r: Row) {
    rows.Cons? && (rows.head == r || Has(rows.tail, r))
  }

  /** A row that is listed is in the table. */
  lemma {:induction false} PrependHas(rows: List<Row>, rest: seq<Opcode>, r: Row)
    requires Has(rows, r)
    ensures Entry(r) in Prepend(rows, rest)
  {
    if rows.head != r {
      PrependHas(rows.tail, rest, r);
    }
  }

  lemma {:induction false} PrependKeeps(rows: List<Row>, rest: seq<Opcode>)
    ensures Within(rest, Prepend(rows, rest))
  {
    if rows.Cons? {
      PrependKeeps(rows.tail, rest);
    }
  }
}
