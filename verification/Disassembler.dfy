/**
  `disppc` and `print_operands`: instruction words to lines of text, in the hexadecimal radix that
  every command in the repository asks for (F_RADHEX).
 */
module Disassembler {
  import opened Wrappers
  import opened Words
  import opened Text
  import opened Tables

  // ----- the line buffer -----

  /** The text in `ctx->data` and the position `ctx->datalen` that the program believes is its end. */
  datatype Line = Line(data: string, len: nat)

  /** `sprintf(&data[datalen], ...)`: writes at `datalen`, which may lie before or beyond the end. */
  function SprintfAt(l: Line, s: string): Line {
    if l.len <= |l.data| then l.(data := l.data[..l.len] + s) else l
  }

  function Strcat(l: Line, s: string): Line {
    l.(data := l.data + s)
  }

  // ----- operands -----

  function NumberedSpr(sprs: seq<SprInfo>, number: nat): (r: Option<string>)
    ensures r.None? ==> forall i :: 0 <= i < |sprs| ==> sprs[i].number != number
    ensures r.Some? ==> exists i :: 0 <= i < |sprs| && sprs[i].number == number && sprs[i].name == r.value
  {
    if sprs == [] then None
    else if sprs[0].number == number then Some(sprs[0].name)
    else NumberedSpr(sprs[1..], number)
  }

  /** `spr_name` */
  function SprName(sprs: seq<SprInfo>, value: nat): string {
    var number := SwapHalves(value);
    match NumberedSpr(sprs, number) case Some(name) => name case None => Digits(number, 10)
  }

  /** `tbr_name` */
  function TbrName(value: nat): string {
    var number := SwapHalves(value);
    if number == 268 then "TBL" else if number == 269 then "TBU" else "???"
  }

  /** The address that a branch field shows at address `virt`. */
  function BranchTarget(e: Opcode, o: Operand, w: Word, virt: Word): Word
    requires 1 <= o.bits
  {
    var d := DecodeDisplacement(Extract(w, o.bits, o.shift), o.bits);
    if e.relative then Wrap(d + virt) else d
  }

  predicate LiteralZero(e: Opcode, o: Operand, w: Word) {
    Extract(w, o.bits, o.shift) == 0 && o.field == O_RA && e.ra0
  }

  function OperandText(t: Table, e: Opcode, o: Operand, w: Word, virt: Word): string
    requires 1 <= o.bits
  {
    var v := Extract(w, o.bits, o.shift);
    match o.kind
    case Addr => Hex(BranchTarget(e, o, w, virt))
    case Reg => if LiteralZero(e, o, w) then "0" else "r" + Digits(v, 10)
    case Spr => SprName(t.sprs, v)
    case Tbr => TbrName(v)
    case Offset => Hex(v % 0x1_0000)
    case Plain => Hex(v % 0x1_0000)
  }

  /** The operand is added with `strcat`, not with `sprintf` at `datalen`. */
  predicate Appended(e: Opcode, o: Operand, w: Word) {
    o.kind.Spr? || o.kind.Tbr? || (o.kind.Reg? && LiteralZero(e, o, w))
  }

  /** What follows an operand's own text, given the number of open parentheses. */
  function Suffix(o: Operand, open: nat): string {
    if (o.kind.Reg? || o.kind.Offset? || o.kind.Plain?) && open > 0 then ")"
    else if o.kind.Offset? then "(" else ""
  }

  function OpenAfter(o: Operand, open: nat): nat {
    if Suffix(o, open) == ")" then open - 1 else if Suffix(o, open) == "(" then open + 1 else open
  }

  /** One turn of the `print_operands` loop, for a visible operand. */
  function PrintOne(t: Table, e: Opcode, w: Word, virt: Word, o: Operand, field: nat, open: nat, l: Line): Line
    requires 1 <= o.bits
  {
    var l := if field > 0 && open == 0 then Line(l.data + ",", l.len + 1) else l;
    var s := OperandText(t, e, o, w, virt);
    var l := if Appended(e, o, w) then Strcat(l, s) else SprintfAt(l, s);
    var l := Strcat(l, Suffix(o, open));
    l.(len := |l.data|)
  }

  function PrintFields(t: Table, e: Opcode, w: Word, virt: Word, fs: seq<Operand>, field: nat, open: nat, l: Line): Line
    requires OperandsOk(fs)
  {
    if fs == [] then l
    else if fs[0].silent then PrintFields(t, e, w, virt, fs[1..], field + 1, open, l)
    else PrintFields(t, e, w, virt, fs[1..], field + 1, OpenAfter(fs[0], open),
                     PrintOne(t, e, w, virt, fs[0], field, open, l))
  }

  // ----- lines -----

  function Spaces(n: nat): (s: string)
    ensures |s| == n && forall c :: c in s ==> c == ' '
  {
    seq(n, _ => ' ')
  }

  /** `%-7s ` */
  function Padded(name: string): string {
    name + Spaces(if |name| < 7 then 7 - |name| else 0) + " "
  }

  const MARGIN: nat := 13

  /** The address and the gap before the instruction: the first 13 columns. */
  function Margin(virt: Word): (s: string)
    ensures |s| == MARGIN
  {
    FixedHex(virt, 8) + ": " + "   "
  }

  /** How a word without a row is shown: 24 columns. */
  function Illegal(w: Word): string {
    Spaces(8) + ".long 0x" + FixedHex(w, 8)
  }

  function Disassemble(t: Table, w: Word, virt: Word): (s: string)
    requires TableOk(t)
  {
    match FirstMatch(t.opcodes, w)
    case None => Margin(virt) + Illegal(w)
    case Some(i) =>
      var e := t.opcodes[i];
      assert EntryOk(e);
      PrintFields(t, e, w, virt, e.fields, 0, 0, Line(Margin(virt) + Padded(e.name), MARGIN + 8)).data
  }

  /** The disassembler context record. */
  class PpcContext {
    var data: string
    var datalen: nat

    constructor ()
      ensures data == [] && datalen == 0
    {
      data, datalen := [], 0;
    }

    function Buffer(): Line
      reads this
    {
      Line(data, datalen)
    }

    method WriteAt(s: string)
      modifies this
      ensures Buffer() == SprintfAt(old(Buffer()), s)
    {
      if datalen <= |data| {
        data := data[..datalen] + s;
      }
    }

    method PrintOperands(t: Table, e: Opcode, instr: Word, virt: Word)
      requires OperandsOk(e.fields)
      modifies this
      ensures Buffer() == PrintFields(t, e, instr, virt, e.fields, 0, 0, old(Buffer()))
    {
      var open: nat := 0;
      for field := 0 to |e.fields|
        invariant PrintFields(t, e, instr, virt, e.fields[field..], field, open, Buffer())
                  == PrintFields(t, e, instr, virt, e.fields, 0, 0, old(Buffer()))
      {
        assert e.fields[field..][1..] == e.fields[field + 1..];
        var opr := e.fields[field];
        if !opr.silent {
          PrintOperand(t, e, instr, virt, opr, field, open);
          open := OpenAfter(opr, open);
        }
      }
    }

    method PrintOperand(t: Table, e: Opcode, instr: Word, virt: Word, opr: Operand, field: nat, open: nat)
      requires OperandOk(opr)
      modifies this
      ensures Buffer() == PrintOne(t, e, instr, virt, opr, field, open, old(Buffer()))
    {
      if field > 0 && open == 0 {
        data := data + ",";
        datalen := datalen + 1;
      }
      var text := OperandText(t, e, opr, instr, virt);
      if Appended(e, opr, instr) {
        data := data + text;
      } else {
        WriteAt(text);
      }
      data := data + Suffix(opr, open);
      datalen := |data|;
    }

    /** The body of the `disppc` loop: one line for one word. */
    method Format(t: Table, instr: Word, virt: Word)
      requires TableOk(t)
      modifies this
      ensures data == Disassemble(t, instr, virt)
    {
      data := FixedHex(virt, 8) + ": ";
      datalen := 10;
      data := data + "   ";
      datalen := datalen + 3;
      TableSteers(t, instr);
      var row := FindOpcode(t.opcodes, instr);
      assert data == Margin(virt) && data[..datalen] == data;
      if row == None {
        WriteAt(Illegal(instr));
        datalen := datalen + 24;
      } else {
        var e := t.opcodes[row.value];
        assert EntryOk(e);
        WriteAt(Padded(e.name));
        datalen := datalen + 8;
        assert Buffer() == Line(Margin(virt) + Padded(e.name), MARGIN + 8);
        PrintOperands(t, e, instr, virt);
      }
    }
  }

  /** Line number `i` of a listing. */
  function ListingLine(t: Table, mem: Word -> Word, addr: Word, virt: Word, i: nat): string
    requires TableOk(t)
  {
    Disassemble(t, mem(Wrap(addr + 4 * i)), Wrap(virt + 4 * i))
  }

  /** The lines for `n` consecutive words. */
  function Listing(t: Table, mem: Word -> Word, addr: Word, virt: Word, n: nat): (lines: seq<string>)
    requires TableOk(t)
  {
    seq(n, i requires 0 <= i < n => ListingLine(t, mem, addr, virt, i))
  }

  lemma NextWord(base: Word, i: nat)
    ensures Following(Wrap(base + 4 * i)) == Wrap(base + 4 * (i + 1))
  {
    WrapAdd(base + 4 * i, 4);
  }

  lemma ListingGrows(t: Table, mem: Word -> Word, addr: Word, virt: Word, n: nat)
    requires TableOk(t)
    ensures Listing(t, mem, addr, virt, n + 1)
            == Listing(t, mem, addr, virt, n) + [Disassemble(t, mem(Wrap(addr + 4 * n)), Wrap(virt + 4 * n))]
  {
    assert ListingLine(t, mem, addr, virt, n) == Disassemble(t, mem(Wrap(addr + 4 * n)), Wrap(virt + 4 * n));
  }

  lemma ListingLines(t: Table, mem: Word -> Word, addr: Word, virt: Word, n: nat)
    requires TableOk(t)
    ensures var lines := Listing(t, mem, addr, virt, n);
            |lines| == n && forall i :: 0 <= i < n ==>
              lines[i] == Disassemble(t, mem(Wrap(addr + 4 * i)), Wrap(virt + 4 * i))
  {
    forall i: nat | i < n
      ensures Listing(t, mem, addr, virt, n)[i] == Disassemble(t, mem(Wrap(addr + 4 * i)), Wrap(virt + 4 * i))
    {
      assert Listing(t, mem, addr, virt, n)[i] == ListingLine(t, mem, addr, virt, i);
    }
  }

  /** `disppc`: an `n` that is negative as an `int` prints nothing; `virt` 0 stands for `memaddr`. */
  method DisPpc(t: Table, mem: Word -> Word, memaddr: Word, virt: Word, n: int) returns (lines: seq<string>)
    requires TableOk(t)
    ensures lines == Listing(t, mem, memaddr, if virt == 0 then memaddr else virt, if n < 0 then 0 else n)
    ensures |lines| == if n < 0 then 0 else n
    ensures forall i :: 0 <= i < |lines| ==>
              lines[i] == Disassemble(t, mem(Wrap(memaddr + 4 * i)),
                                      Wrap((if virt == 0 then memaddr else virt) + 4 * i))
  {
    var ctx := new PpcContext();
    ghost var start := if virt == 0 then memaddr else virt;
    var addr: Word, v: Word := memaddr, if virt == 0 then memaddr else virt;
    lines := [];
    var i := 0;
    while i < n
      invariant 0 <= i && (n >= 0 ==> i <= n) && (n < 0 ==> i == 0)
      invariant addr == Wrap(memaddr + 4 * i) && v == Wrap(start + 4 * i)
      invariant lines == Listing(t, mem, memaddr, start, i)
    {
      ctx.Format(t, mem(addr), v);
      ListingGrows(t, mem, memaddr, start, i);
      lines := lines + [ctx.data];
      NextWord(memaddr, i);
      NextWord(start, i);
      i, addr, v := i + 1, Following(addr), Following(v);
    }
    ListingLines(t, mem, memaddr, start, if n < 0 then 0 else n);
  }
}
