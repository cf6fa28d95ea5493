/**
  `asmppc`: one line of text to one instruction word.
 */
module Assembler {
  import opened Wrappers
  import opened Words
  import opened Text
  import opened Tables

  datatype AsmError = NoError | BadOpcode | NumOperands | BadRegister | BadSpr | BadTbr

  /** The word is 0 on failure; the error is `NoError` also when the line holds no word at all. */
  datatype AsmResult = AsmResult(word: nat, err: AsmError)

  // ----- special and time-base registers -----

  function SprNamed(sprs: seq<SprInfo>, name: string): (r: Option<nat>)
    ensures r.None? ==> forall i :: 0 <= i < |sprs| ==> sprs[i].name != name
    ensures r.Some? ==> exists i :: 0 <= i < |sprs| && sprs[i].name == name
  {
    if sprs == [] then None
    else if sprs[0].name == name then Some(sprs[0].number)
    else SprNamed(sprs[1..], name)
  }

  /** `spr_value`: 0 when the register is not found. */
  function SprValue(sprs: seq<SprInfo>, txt: string): nat {
    if txt == [] then 0
    else if IsDigit(txt[0]) then SwapHalves(ReadNumber(txt))
    else match SprNamed(sprs, Lowered(txt)) case None => 0 case Some(n) => SwapHalves(n)
  }

  /** The time-base register that a text names, or 0. */
  function TbrNumber(txt: string): nat {
    var name := Lowered(txt);
    if name == [] then 0
    else if IsDigit(name[0]) then
      var n := ReadNumber(name);
      if n != 268 && n != 269 then 0 else n
    else if name == "tbl" then 268
    else if name == "tbu" then 269
    else 0
  }

  /** `tbr_value`: 0 unless the text names one of the two time-base registers. */
  function TbrValue(txt: string): nat {
    var n := TbrNumber(txt);
    if n == 0 then 0 else SwapHalves(n)
  }

  // ----- parse_operand -----

  datatype Parsed = Value(data: nat) | Bad(err: AsmError)

  function RegisterDigits(txt: string): string {
    if |txt| > 0 && (txt[0] == 'r' || txt[0] == 'R') then txt[1..]
    else if |txt| > 1 && txt[0] == '%' && (txt[1] == 'r' || txt[1] == 'R') then txt[2..]
    else txt
  }

  /** The operand's value before it is masked and shifted into place. */
  function OperandData(t: Table, addr: Word, e: Opcode, o: Operand, txt: string): Parsed
    requires OperandOk(o)
  {
    match o.kind
    case Addr =>
      var n := ReadNumber(txt);
      Value(EncodeDisplacement(if e.relative then Wrap(n - addr) else n, o.bits))
    case Reg =>
      var n := ReadNumber(RegisterDigits(txt));
      if Signed(n) > 31 then Bad(BadRegister) else Value(n)
    case Spr =>
      var n := SprValue(t.sprs, txt);
      if n == 0 then Bad(BadSpr) else Value(n)
    case Tbr =>
      var n := TbrValue(txt);
      if n == 0 then Bad(BadTbr) else Value(n)
    case Offset => Value(ReadNumber(txt))
    case Plain => Value(ReadNumber(txt))
  }

  /** `parse_operand`: the bits to merge into the instruction, or -1 (as an unsigned long) and an error. */
  function ParseOperand(t: Table, addr: Word, e: Opcode, o: Operand, txt: string): AsmResult
    requires OperandOk(o)
  {
    match OperandData(t, addr, e, o, txt)
    case Bad(err) => AsmResult(0xFFFF_FFFF, err)
    case Value(data) => AsmResult(Insert(data, o.bits, o.shift), NoError)
  }

  // ----- asmppc -----

  /** The operand loop of `asmppc`, from operand list `fs`, text `text` and instruction so far `instr`. */
  function AssembleFields(t: Table, addr: Word, e: Opcode, fs: seq<Operand>, text: string, instr: nat): AsmResult
    requires OperandsOk(fs)
  {
    if fs == [] then AsmResult(instr, NoError)
    else if fs[0].silent then AssembleFields(t, addr, e, fs[1..], text, instr)
    else
      var token := NextToken(text);
      if token.word == [] then AsmResult(0, NumOperands)
      else
        var param := ParseOperand(t, addr, e, fs[0], token.word);
        if param.word == 0xFFFF_FFFF then AsmResult(0, param.err)
        else AssembleFields(t, addr, e, fs[1..], token.rest, Or(instr, param.word))
  }

  function Assemble(t: Table, addr: Word, text: string): AsmResult
    requires TableOk(t)
  {
    var token := NextToken(text);
    if token.word == [] then AsmResult(0, NoError)
    else match FirstNamed(t.opcodes, Lowered(token.word))
      case None => AsmResult(0, BadOpcode)
      case Some(i) =>
        var e := t.opcodes[i];
        assert EntryOk(e);
        AssembleFields(t, addr, e, e.fields, token.rest, e.opcode)
  }

  /** The operand loop of `asmppc`. */
  method ReadOperands(t: Table, addr: Word, e: Opcode, text: string, start: nat) returns (r: AsmResult)
    requires OperandsOk(e.fields) && start <= |text|
    ensures r == AssembleFields(t, addr, e, e.fields, text[start..], e.opcode)
  {
    var wanted, read, ptr, instr := |e.fields|, 0, start, e.opcode as nat;
    ghost var result := AssembleFields(t, addr, e, e.fields, text[start..], e.opcode);
    while read < wanted
      invariant 0 <= read <= wanted && 0 <= ptr <= |text|
      invariant AssembleFields(t, addr, e, e.fields[read..], text[ptr..], instr) == result
    {
      ghost var before := text[ptr..];
      assert e.fields[read..][1..] == e.fields[read + 1..];
      if e.fields[read].silent {
        read := read + 1;
        continue;
      }
      var scratch;
      scratch, ptr := GetWord(text, ptr);
      assert NextToken(before) == Token(scratch, text[ptr..]);
      if scratch == [] {
        break;
      }
      var param := ParseOperand(t, addr, e, e.fields[read], scratch);
      if param.word == 0xFFFF_FFFF {
        return AsmResult(0, param.err);
      }
      instr := Or(instr, param.word);
      read := read + 1;
    }
    if read < wanted {
      return AsmResult(0, NumOperands);
    }
    return AsmResult(instr, NoError);
  }

  method AsmPpc(t: Table, addr: Word, text: string) returns (r: AsmResult)
    requires TableOk(t)
    ensures r == Assemble(t, addr, text)
  {
    var scratch, ptr := GetWord(text, 0);
    assert text[0..] == text;
    if scratch == [] {
      return AsmResult(0, NoError);
    }
    var row := FindOpcodeByName(t.opcodes, scratch);
    if row == None {
      return AsmResult(0, BadOpcode);
    }
    assert EntryOk(t.opcodes[row.value]);
    r := ReadOperands(t, addr, t.opcodes[row.value], text, ptr);
  }

  // ----- what a line assembles to -----

  /** The word number `k` of a line, empty when there is none. */
  function WordAt(text: string, k: nat): string
    decreases k
  {
    if k == 0 then NextToken(text).word else WordAt(NextToken(text).rest, k - 1)
  }

  /** The error that an operand's word calls for. */
  function ErrorOf(t: Table, addr: Word, e: Opcode, o: Operand, word: string): (err: AsmError)
    requires OperandOk(o)
    ensures err != BadOpcode
  {
    if word == [] then NumOperands
    else match OperandData(t, addr, e, o, word) case Bad(err) => err case Value(_) => NoError
  }

  /** `-1` from `parse_operand` always means an error. */
  lemma SentinelUnambiguous(t: Table, addr: Word, e: Opcode, o: Operand, txt: string)
    requires OperandOk(o)
    ensures var p := ParseOperand(t, addr, e, o, txt); p.word == 0xFFFF_FFFF <==> p.err != NoError
    ensures ParseOperand(t, addr, e, o, txt).word < 0x1_0000_0000
  {
    match OperandData(t, addr, e, o, txt)
    case Bad(_) =>
    case Value(data) => InsertBounded(data, o.bits, o.shift);
  }

  /** The merged bits of the operands in `fs`, read from consecutive words. */
  function Encoded(t: Table, addr: Word, e: Opcode, fs: seq<Operand>, text: string): nat
    requires OperandsOk(fs)
  {
    if fs == [] || fs[0].silent then 0
    else Or(ParseOperand(t, addr, e, fs[0], NextToken(text).word).word,
            Encoded(t, addr, e, fs[1..], NextToken(text).rest))
  }

  ghost predicate NoErrors(t: Table, addr: Word, e: Opcode, fs: seq<Operand>, text: string, n: nat)
    requires OperandsOk(fs) && n <= |fs|
  {
    forall k :: 0 <= k < n && !fs[k].silent ==> ErrorOf(t, addr, e, fs[k], WordAt(text, k)) == NoError
  }

  lemma {:induction false} AllSilent(t: Table, addr: Word, e: Opcode, fs: seq<Operand>, text: string, instr: nat)
    requires OperandsOk(fs) && forall i :: 0 <= i < |fs| ==> fs[i].silent
    ensures AssembleFields(t, addr, e, fs, text, instr) == AsmResult(instr, NoError)
  {
    if fs != [] {
      AllSilent(t, addr, e, fs[1..], text, instr);
    }
  }

  /** The operand loop succeeds exactly when no operand's word is in error, and then merges all the
      operands; otherwise it yields 0 and the error of the first operand that has one. */
  lemma {:induction false} FieldsOutcome(t: Table, addr: Word, e: Opcode, fs: seq<Operand>, text: string, instr: nat)
    requires OperandsOk(fs) && SilentLast(fs)
    ensures var r := AssembleFields(t, addr, e, fs, text, instr);
            if NoErrors(t, addr, e, fs, text, |fs|) then
              r == AsmResult(Or(instr, Encoded(t, addr, e, fs, text)), NoError)
            else
              exists k :: 0 <= k < |fs| && !fs[k].silent && NoErrors(t, addr, e, fs, text, k)
                && r.err != NoError && r == AsmResult(0, ErrorOf(t, addr, e, fs[k], WordAt(text, k)))
    decreases fs
  {
    if fs == [] {
    } else if fs[0].silent {
      AllSilent(t, addr, e, fs, text, instr);
    } else {
      var token, rest := NextToken(text), fs[1..];
      assert WordAt(text, 0) == token.word;
      if ErrorOf(t, addr, e, fs[0], token.word) == NoError {
        var param := ParseOperand(t, addr, e, fs[0], token.word).word;
        SentinelUnambiguous(t, addr, e, fs[0], token.word);
        FieldsOutcome(t, addr, e, rest, token.rest, Or(instr, param));
        OrAssociative(instr, param, Encoded(t, addr, e, rest, token.rest));
        forall n | 0 <= n <= |rest|
          ensures NoErrors(t, addr, e, fs, text, n + 1) == NoErrors(t, addr, e, rest, token.rest, n)
        {
          NoErrorsTail(t, addr, e, fs, text, n);
        }
        if !NoErrors(t, addr, e, rest, token.rest, |rest|) {
          var k :| 0 <= k < |rest| && !rest[k].silent && NoErrors(t, addr, e, rest, token.rest, k)
            && AssembleFields(t, addr, e, rest, token.rest, Or(instr, param))
               == AsmResult(0, ErrorOf(t, addr, e, rest[k], WordAt(token.rest, k)));
          assert fs[k + 1] == rest[k] && WordAt(text, k + 1) == WordAt(token.rest, k);
          assert NoErrors(t, addr, e, fs, text, k + 1);
        }
      } else {
        assert NoErrors(t, addr, e, fs, text, 0);
      }
    }
  }

  lemma NoErrorsTail(t: Table, addr: Word, e: Opcode, fs: seq<Operand>, text: string, n: nat)
    requires OperandsOk(fs) && n + 1 <= |fs| && !fs[0].silent
    requires ErrorOf(t, addr, e, fs[0], NextToken(text).word) == NoError
    ensures NoErrors(t, addr, e, fs, text, n + 1) == NoErrors(t, addr, e, fs[1..], NextToken(text).rest, n)
  {
    var rest, tail := fs[1..], NextToken(text).rest;
    assert forall k :: 0 <= k < n ==> rest[k] == fs[k + 1] && WordAt(tail, k) == WordAt(text, k + 1);
    if NoErrors(t, addr, e, fs, text, n + 1) {
      forall k | 0 <= k < n && !rest[k].silent ensures ErrorOf(t, addr, e, rest[k], WordAt(tail, k)) == NoError {
        assert ErrorOf(t, addr, e, fs[k + 1], WordAt(text, k + 1)) == NoError;
      }
    }
    if NoErrors(t, addr, e, rest, tail, n) {
      forall k | 0 <= k < n + 1 && !fs[k].silent ensures ErrorOf(t, addr, e, fs[k], WordAt(text, k)) == NoError {
        assert k != 0 ==> ErrorOf(t, addr, e, rest[k - 1], WordAt(tail, k - 1)) == NoError;
      }
    }
  }

  // ----- the encoded word -----

  lemma {:induction false} VisibleBit(fs: seq<Operand>, i: nat)
    ensures Bit(VisibleBits(fs), i) <==>
            exists k :: 0 <= k < |fs| && !fs[k].silent && fs[k].shift <= i < fs[k].shift + fs[k].bits
  {
    if fs == [] {
      BitOfZero(i);
    } else {
      var rest := fs[1..];
      VisibleBit(rest, i);
      assert forall k :: 0 <= k < |rest| ==> rest[k] == fs[k + 1];
      if !fs[0].silent {
        BitOr(FieldBits(fs[0].bits, fs[0].shift), VisibleBits(rest), i);
        BitField(fs[0].bits, fs[0].shift, i);
      }
      if k :| 0 <= k < |fs| && !fs[k].silent && fs[k].shift <= i < fs[k].shift + fs[k].bits {
        assert k != 0 ==> rest[k - 1] == fs[k];
      }
    }
  }

  lemma {:induction false} EncodedInside(t: Table, addr: Word, e: Opcode, fs: seq<Operand>, text: string, i: nat)
    requires OperandsOk(fs) && NoErrors(t, addr, e, fs, text, |fs|) && Bit(Encoded(t, addr, e, fs, text), i)
    ensures Bit(VisibleBits(fs), i)
    decreases fs
  {
    BitOfZero(i);
    if fs != [] && !fs[0].silent {
      var o, token := fs[0], NextToken(text);
      assert WordAt(text, 0) == token.word;
      var data := OperandData(t, addr, e, o, token.word).data;
      BitOr(Insert(data, o.bits, o.shift), Encoded(t, addr, e, fs[1..], token.rest), i);
      BitInsert(data, o.bits, o.shift, i);
      BitField(o.bits, o.shift, i);
      BitOr(FieldBits(o.bits, o.shift), VisibleBits(fs[1..]), i);
      NoErrorsTail(t, addr, e, fs, text, |fs| - 1);
      if Bit(Encoded(t, addr, e, fs[1..], token.rest), i) {
        EncodedInside(t, addr, e, fs[1..], token.rest, i);
      }
    }
  }

  /** Every visible field of the merged operands holds its own operand: no field disturbs another. */
  lemma {:induction false} EncodedField(t: Table, addr: Word, e: Opcode, fs: seq<Operand>, text: string, k: nat)
    requires OperandsOk(fs) && SilentLast(fs) && VisibleApart(fs)
    requires NoErrors(t, addr, e, fs, text, |fs|) && k < |fs| && !fs[k].silent
    ensures ErrorOf(t, addr, e, fs[k], WordAt(text, k)) == NoError
    ensures Extract(Encoded(t, addr, e, fs, text), fs[k].bits, fs[k].shift)
            == And(OperandData(t, addr, e, fs[k], WordAt(text, k)).data, Ones(fs[k].bits))
    decreases fs
  {
    var o, rest, token := fs[0], fs[1..], NextToken(text);
    assert WordAt(text, 0) == token.word && !o.silent;
    var data := OperandData(t, addr, e, o, token.word).data;
    var param, tail := Insert(data, o.bits, o.shift), Encoded(t, addr, e, rest, token.rest);
    NoErrorsTail(t, addr, e, fs, text, |fs| - 1);
    if k == 0 {
      forall i: nat | Bit(tail, i) ensures Bit(VisibleBits(rest), i) {
        EncodedInside(t, addr, e, rest, token.rest, i);
      }
      FirstField(o, rest, data, tail);
    } else {
      LaterField(o, fs[k], data, tail);
      EncodedField(t, addr, e, rest, token.rest, k - 1);
      assert WordAt(text, k) == WordAt(token.rest, k - 1);
    }
  }

  lemma FirstField(o: Operand, rest: seq<Operand>, data: nat, tail: nat)
    requires forall i :: 0 <= i < |rest| && !rest[i].silent ==> Apart(o, rest[i])
    requires forall i: nat :: Bit(tail, i) ==> Bit(VisibleBits(rest), i)
    ensures Extract(Or(Insert(data, o.bits, o.shift), tail), o.bits, o.shift) == And(data, Ones(o.bits))
  {
    forall i: nat ensures !(Bit(tail, i) && Bit(FieldBits(o.bits, o.shift), i)) {
      BitField(o.bits, o.shift, i);
      VisibleBit(rest, i);
    }
    ExtractDisjoint(Insert(data, o.bits, o.shift), tail, o.bits, o.shift);
    ExtractInsert(data, o.bits, o.shift);
  }

  lemma LaterField(o: Operand, p: Operand, data: nat, tail: nat)
    requires Apart(o, p)
    ensures Extract(Or(Insert(data, o.bits, o.shift), tail), p.bits, p.shift) == Extract(tail, p.bits, p.shift)
  {
    var param := Insert(data, o.bits, o.shift);
    forall i: nat ensures !(Bit(param, i) && Bit(FieldBits(p.bits, p.shift), i)) {
      BitInsert(data, o.bits, o.shift, i);
      BitField(p.bits, p.shift, i);
    }
    ExtractDisjoint(tail, param, p.bits, p.shift);
  }

  /** Visible fields lie outside the mask, silent fields inside. */
  lemma FieldAgainstMask(e: Opcode, k: nat, i: nat)
    requires EntryOk(e) && k < |e.fields| && e.fields[k].shift <= i < e.fields[k].shift + e.fields[k].bits
    ensures Bit(e.mask, i) == e.fields[k].silent
  {
    var o := e.fields[k];
    BitField(o.bits, o.shift, i);
    BitAnd(FieldBits(o.bits, o.shift), e.mask, i);
    BitOfZero(i);
  }

  lemma VisibleOutsideMask(e: Opcode, i: nat)
    requires EntryOk(e) && Bit(VisibleBits(e.fields), i)
    ensures !Bit(e.mask, i) && !Bit(e.opcode, i) && i < 32
  {
    VisibleBit(e.fields, i);
    var k :| 0 <= k < |e.fields| && !e.fields[k].silent
      && e.fields[k].shift <= i < e.fields[k].shift + e.fields[k].bits;
    FieldAgainstMask(e, k, i);
    BitAnd(e.opcode, e.mask, i);
  }

  /** An opcode merged with bits of its visible fields still matches its own row. */
  lemma MergedMatches(e: Opcode, x: nat)
    requires EntryOk(e) && forall i: nat :: Bit(x, i) ==> Bit(VisibleBits(e.fields), i)
    ensures 0 < Or(e.opcode, x) < 0x1_0000_0000 && Matches(e, Or(e.opcode, x))
    ensures And(Or(e.opcode, x), Or(e.mask, VisibleBits(e.fields))) == Or(e.opcode, x)
  {
    var w, all := Or(e.opcode, x), Or(e.mask, VisibleBits(e.fields));
    forall i: nat
      ensures Bit(And(w, e.mask), i) == Bit(e.opcode, i) && (i >= 32 ==> !Bit(w, i))
      ensures Bit(And(w, all), i) == Bit(w, i)
    {
      BitAnd(w, all, i);
      BitOr(e.mask, VisibleBits(e.fields), i);
      BitAnd(w, e.mask, i);
      BitOr(e.opcode, x, i);
      BitAnd(e.opcode, e.mask, i);
      if Bit(x, i) {
        VisibleOutsideMask(e, i);
      } else if i >= 32 {
        WordBits(e.opcode, i);
      }
    }
    SameBits(And(w, e.mask), e.opcode);
    SameBits(And(w, all), w);
    OnesWord();
    BelowPower(w, 32);
    AndBounded(w, e.mask);
  }

  /** The value that field `k` must hold: a visible field its operand, a silent one the opcode's bits. */
  function FieldMeaning(t: Table, addr: Word, e: Opcode, text: string, k: nat): nat
    requires k < |e.fields| && OperandOk(e.fields[k])
    requires !e.fields[k].silent ==> ErrorOf(t, addr, e, e.fields[k], WordAt(text, k)) == NoError
  {
    var o := e.fields[k];
    if o.silent then Extract(e.opcode, o.bits, o.shift)
    else And(OperandData(t, addr, e, o, WordAt(text, k)).data, Ones(o.bits))
  }

  lemma AssembledWord(t: Table, addr: Word, e: Opcode, text: string)
    requires EntryOk(e) && NoErrors(t, addr, e, e.fields, text, |e.fields|)
    ensures var w := Or(e.opcode, Encoded(t, addr, e, e.fields, text));
            && 0 < w < 0x1_0000_0000 && Matches(e, w)
            && And(w, Or(e.mask, VisibleBits(e.fields))) == w
            && forall k :: 0 <= k < |e.fields| ==>
                 OperandValue(e.fields, w, e.fields[k].field) == Some(FieldMeaning(t, addr, e, text, k))
  {
    var x := Encoded(t, addr, e, e.fields, text);
    var w := Or(e.opcode, x);
    forall i: nat | Bit(x, i) ensures Bit(VisibleBits(e.fields), i) {
      EncodedInside(t, addr, e, e.fields, text, i);
    }
    MergedMatches(e, x);
    forall k | 0 <= k < |e.fields|
      ensures OperandValue(e.fields, w, e.fields[k].field) == Some(FieldMeaning(t, addr, e, text, k))
    {
      var o := e.fields[k];
      OperandValueAt(e.fields, w, k);
      forall i: nat ensures !(Bit(if o.silent then x else e.opcode, i) && Bit(FieldBits(o.bits, o.shift), i)) {
        BitField(o.bits, o.shift, i);
        if o.shift <= i < o.shift + o.bits {
          FieldAgainstMask(e, k, i);
          BitAnd(e.opcode, e.mask, i);
          if Bit(x, i) {
            VisibleOutsideMask(e, i);
          }
        }
      }
      if o.silent {
        ExtractDisjoint(e.opcode, x, o.bits, o.shift);
      } else {
        ExtractDisjoint(x, e.opcode, o.bits, o.shift);
        EncodedField(t, addr, e, e.fields, text, k);
      }
    }
  }

  /** The row that a line's first word names. */
  function NamedRow(t: Table, text: string): (r: Option<nat>)
    ensures r.Some? ==> r.value < |t.opcodes|
  {
    var token := NextToken(text);
    if token.word == [] then None else FirstNamed(t.opcodes, Lowered(token.word))
  }

  /** The line names a row and every operand of that row has a word that can be encoded. */
  ghost predicate Accepts(t: Table, addr: Word, text: string)
    requires TableOk(t)
  {
    NamedRow(t, text).Some? &&
    var e := t.opcodes[NamedRow(t, text).value];
    assert EntryOk(e);
    NoErrors(t, addr, e, e.fields, NextToken(text).rest, |e.fields|)
  }

  /** An accepted line gives a nonzero word that decodes to the row the line names, and in which
      every field holds its own operand. */
  lemma AcceptedLine(t: Table, addr: Word, text: string)
    requires TableOk(t) && Accepts(t, addr, text)
    ensures var r, i := Assemble(t, addr, text), NamedRow(t, text).value;
            var e := t.opcodes[i];
            && r.err == NoError && 0 < r.word < 0x1_0000_0000
            && FirstMatch(t.opcodes, r.word) == Some(i)
            && And(r.word, Or(e.mask, VisibleBits(e.fields))) == r.word
            && OperandsOk(e.fields)
            && forall k :: 0 <= k < |e.fields| ==>
                 OperandValue(e.fields, r.word, e.fields[k].field)
                 == Some(FieldMeaning(t, addr, e, NextToken(text).rest, k))
  {
    var i, rest := NamedRow(t, text).value, NextToken(text).rest;
    var e := t.opcodes[i];
    assert EntryOk(e);
    FieldsOutcome(t, addr, e, e.fields, rest, e.opcode);
    AssembledWord(t, addr, e, rest);
    assert Assemble(t, addr, text).word == Or(e.opcode, Encoded(t, addr, e, e.fields, rest));
    UniqueMatch(t, Assemble(t, addr, text).word, i, i);
  }

  /** A line that is not accepted gives 0, and the error tells why: none for a line without a word,
      otherwise the unknown mnemonic or the first operand in error. */
  lemma RejectedLine(t: Table, addr: Word, text: string)
    requires TableOk(t) && !Accepts(t, addr, text)
    ensures var r, token := Assemble(t, addr, text), NextToken(text);
            && r.word == 0
            && (r.err == NoError <==> token.word == [])
            && (r.err == BadOpcode <==> token.word != [] && NamedRow(t, text).None?)
            && (NamedRow(t, text).Some? ==>
                  var e := t.opcodes[NamedRow(t, text).value];
                  && OperandsOk(e.fields)
                  && exists k :: 0 <= k < |e.fields| && !e.fields[k].silent
                       && NoErrors(t, addr, e, e.fields, token.rest, k)
                       && r.err == ErrorOf(t, addr, e, e.fields[k], WordAt(token.rest, k)))
  {
    var token := NextToken(text);
    if NamedRow(t, text).Some? {
      var e := t.opcodes[NamedRow(t, text).value];
      assert EntryOk(e);
      FieldsOutcome(t, addr, e, e.fields, token.rest, e.opcode);
      var r := AssembleFields(t, addr, e, e.fields, token.rest, e.opcode);
      assert Assemble(t, addr, text) == r;
      var k :| 0 <= k < |e.fields| && !e.fields[k].silent && NoErrors(t, addr, e, e.fields, token.rest, k)
        && r.err != NoError && r == AsmResult(0, ErrorOf(t, addr, e, e.fields[k], WordAt(token.rest, k)));
    }
  }

  /** When nothing of a written operand is lost: its field holds the operand exactly if and only if the
      operand fits the field.  The assembler does not complain about one that does not. */
  lemma FieldExact(t: Table, addr: Word, text: string, k: nat)
    requires TableOk(t) && Accepts(t, addr, text)
    requires var e := t.opcodes[NamedRow(t, text).value]; k < |e.fields| && !e.fields[k].silent
    ensures var e, w := t.opcodes[NamedRow(t, text).value], Assemble(t, addr, text).word;
            var o := e.fields[k];
            && OperandOk(o)
            && var p := OperandData(t, addr, e, o, WordAt(NextToken(text).rest, k));
            && p.Value? && (Extract(w, o.bits, o.shift) == p.data <==> p.data <= Ones(o.bits))
            && (o.kind.Plain? || o.kind.Offset? ==> p.data == ReadNumber(WordAt(NextToken(text).rest, k)))
  {
    var e, w := t.opcodes[NamedRow(t, text).value], Assemble(t, addr, text).word;
    var o := e.fields[k];
    AcceptedLine(t, addr, text);
    FieldHolds(t, addr, e, NextToken(text).rest, k, w);
  }

  lemma FieldHolds(t: Table, addr: Word, e: Opcode, rest: string, k: nat, w: Word)
    requires EntryOk(e) && k < |e.fields| && !e.fields[k].silent
    requires ErrorOf(t, addr, e, e.fields[k], WordAt(rest, k)) == NoError
    requires OperandValue(e.fields, w, e.fields[k].field) == Some(FieldMeaning(t, addr, e, rest, k))
    ensures var o := e.fields[k];
            var p := OperandData(t, addr, e, o, WordAt(rest, k));
            && p.Value? && (Extract(w, o.bits, o.shift) == p.data <==> p.data <= Ones(o.bits))
            && (o.kind.Plain? || o.kind.Offset? ==> p.data == ReadNumber(WordAt(rest, k)))
  {
    var o := e.fields[k];
    OperandValueAt(e.fields, w, k);
    var data := ErrorFreeData(t, addr, e, o, WordAt(rest, k));
    LowBits(data, o.bits);
  }

  lemma ErrorFreeData(t: Table, addr: Word, e: Opcode, o: Operand, word: string) returns (data: nat)
    requires OperandOk(o) && ErrorOf(t, addr, e, o, word) == NoError
    ensures OperandData(t, addr, e, o, word) == Value(data)
    ensures o.kind.Plain? || o.kind.Offset? ==> data == ReadNumber(word)
  {
    data := OperandData(t, addr, e, o, word).data;
  }

  /** A field of 15 bits, as that of displacements, holds 0x7ffc for -4: the sign is lost. */
  lemma SignLost(n: Word, bits: nat)
    requires n == ReadNumber("-4") && bits == 15
    ensures And(n, Ones(bits)) == 0x7FFC
  {
    assert n % 0x8000 == 0x7FFC by { MinusFour(); }
    FifteenBits(n, bits);
  }

  lemma FifteenBits(n: nat, bits: nat)
    requires bits == 15
    ensures And(n, Ones(bits)) == n % 0x8000
  {
    AndOnes(n, bits);
    assert Shl(1, bits) == 2 * Shl(1, bits - 1) == 0x8000 by { Powers(); }
  }

  lemma MinusFour()
    ensures ReadNumber("-4") == 0xFFFF_FFFC
  {
    assert "-4"[1..] == "4" && "4"[1..] == [];
    assert ReadDigits("4", 10, 0) == ReadDigits([], 10, 4);
  }

  // ----- typed operands -----

  /** Where the number starts in a typed register: after "r", "R", "%r" or "%R". */
  predicate RegisterPrefix(prefix: string) {
    prefix == "r" || prefix == "R" || prefix == "%r" || prefix == "%R"
  }

  /** A register is its number, with one of the prefixes or with none; 32 up to 2^31 - 1 is an error. */
  lemma TypedRegister(t: Table, addr: Word, e: Opcode, o: Operand, prefix: string, number: string)
    requires OperandOk(o) && o.kind.Reg? && (RegisterPrefix(prefix) || prefix == "")
    requires prefix == "" ==> number != [] && number[0] !in ['r', 'R', '%']
    ensures var n := ReadNumber(number);
            OperandData(t, addr, e, o, prefix + number)
            == if 32 <= n < 0x8000_0000 then Bad(BadRegister) else Value(n)
  {
    assert (prefix + number)[|prefix|..] == number;
    assert prefix == "" ==> prefix + number == number;
    assert RegisterDigits(prefix + number) == number;
  }

  /** A special register by its number, halves swapped; 0 is an error. */
  lemma TypedSpr(t: Table, addr: Word, e: Opcode, o: Operand, txt: string)
    requires OperandOk(o) && o.kind.Spr? && txt != [] && IsDigit(txt[0])
    ensures var n := ReadNumber(txt); var v := n / 32 % 32 + 32 * (n % 32);
            OperandData(t, addr, e, o, txt) == if v == 0 then Bad(BadSpr) else Value(v)
  {
    SwapArithmetic(ReadNumber(txt));
  }

  /** A special register by its name, in any case: the first of that name in the table counts. */
  lemma {:induction false} NamedSpr(sprs: seq<SprInfo>, txt: string, i: nat)
    requires txt != [] && !IsDigit(txt[0]) && i < |sprs| && sprs[i].name == Lowered(txt)
    requires forall j :: 0 <= j < i ==> sprs[j].name != Lowered(txt)
    ensures SprValue(sprs, txt) == sprs[i].number / 32 % 32 + 32 * (sprs[i].number % 32)
  {
    FirstSprNamed(sprs, Lowered(txt), i);
    SwapArithmetic(sprs[i].number);
  }

  lemma {:induction false} FirstSprNamed(sprs: seq<SprInfo>, name: string, i: nat)
    requires i < |sprs| && sprs[i].name == name && forall j :: 0 <= j < i ==> sprs[j].name != name
    ensures SprNamed(sprs, name) == Some(sprs[i].number)
  {
    if i > 0 {
      FirstSprNamed(sprs[1..], name, i - 1);
    }
  }

  /** The number of the time-base register that a text in small letters names: 268 or "tbl", 269 or "tbu". */
  function TbrTyped(low: string): nat {
    if low == "tbl" || (low != [] && IsDigit(low[0]) && ReadNumber(low) == 268) then 268
    else if low == "tbu" || (low != [] && IsDigit(low[0]) && ReadNumber(low) == 269) then 269
    else 0
  }

  /** A time-base register by name or number, in any case, halves swapped; nothing else is one. */
  lemma TypedTbr(txt: string, n: nat)
    requires n == TbrTyped(Lowered(txt))
    ensures TbrValue(txt) == if n == 0 then 0 else n / 32 % 32 + 32 * (n % 32)
  {
    assert TbrNumber(txt) == n;
    SwapArithmetic(n);
  }

  /** What each error code means. */
  lemma ErrorCodes(t: Table, addr: Word, e: Opcode, o: Operand, word: string)
    requires OperandOk(o)
    ensures var err := ErrorOf(t, addr, e, o, word);
            && (err == NumOperands <==> word == [])
            && (err == BadRegister <==>
                word != [] && o.kind.Reg? && 32 <= ReadNumber(RegisterDigits(word)) < 0x8000_0000)
            && (err == BadSpr <==> word != [] && o.kind.Spr? && SprValue(t.sprs, word) == 0)
            && (err == BadTbr <==> word != [] && o.kind.Tbr? && TbrValue(word) == 0)
            && err != BadOpcode
  {
  }
}
