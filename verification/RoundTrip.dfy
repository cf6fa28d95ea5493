/**
  Text to word to text: when the assembler reads back what the disassembler wrote.
 */
module RoundTrip {
  import opened Wrappers
  import opened Words
  import opened Text
  import opened Tables
  import opened Assembler
  import opened Disassembler

  // ----- the shape of a printed operand list -----

  /** The comma-separated pieces of an operand list; an offset and its register make one piece. */
  function Pieces(t: Table, e: Opcode, w: Word, virt: Word, fs: seq<Operand>): seq<string>
    requires OperandsOk(fs)
  {
    if fs == [] || fs[0].silent then []
    else if fs[0].kind.Offset? && |fs| > 1 then
      [OperandText(t, e, fs[0], w, virt) + "(" + OperandText(t, e, fs[1], w, virt) + ")"]
      + Pieces(t, e, w, virt, fs[2..])
    else [OperandText(t, e, fs[0], w, virt)] + Pieces(t, e, w, virt, fs[1..])
  }

  function Join(pieces: seq<string>): string {
    if pieces == [] then []
    else if |pieces| == 1 then pieces[0]
    else pieces[0] + "," + Join(pieces[1..])
  }

  /** What the operand loop keeps of a buffer whose recorded length may fall short of its end. */
  function Kept(e: Opcode, w: Word, fs: seq<Operand>, l: Line): string
    requires l.len <= |l.data|
  {
    if fs == [] || fs[0].silent || Appended(e, fs[0], w) then l.data else l.data[..l.len]
  }

  function Separated(field: nat, pieces: seq<string>): string {
    if pieces == [] then [] else if field > 0 then "," + Join(pieces) else Join(pieces)
  }

  /** From the second operand on the recorded length is the real one, so the loop appends: commas
      between pieces, parentheses closed by the register that follows an offset. */
  lemma {:induction false} PrintedOperands(t: Table, e: Opcode, w: Word, virt: Word, fs: seq<Operand>,
                                           field: nat, l: Line)
    requires OperandsOk(fs) && SilentLast(fs) && OffsetsPaired(fs)
    requires l.len <= |l.data| && (field > 0 ==> l.len == |l.data|)
    ensures var r := PrintFields(t, e, w, virt, fs, field, 0, l);
            && r.data == Kept(e, w, fs, l) + Separated(field, Pieces(t, e, w, virt, fs))
            && (l.len == |l.data| || (fs != [] && !fs[0].silent) ==> r.len == |r.data|)
    decreases fs
  {
    if fs == [] || fs[0].silent {
      AllSilentPrinted(t, e, w, virt, fs, field, l);
    } else if fs[0].kind.Offset? {
      PrintedOffset(t, e, w, virt, fs, field, l);
    } else {
      var l1 := PrintOne(t, e, w, virt, fs[0], field, 0, l);
      var s0, rest := OperandText(t, e, fs[0], w, virt), Pieces(t, e, w, virt, fs[1..]);
      PrintedOne(t, e, w, virt, fs[0], field, 0, l);
      PrintedOperands(t, e, w, virt, fs[1..], field + 1, l1);
      assert Kept(e, w, fs[1..], l1) == l1.data;
      AppendPiece(Kept(e, w, fs, l), field, s0, rest, l1.data);
    }
  }

  lemma {:induction false} PrintedOffset(t: Table, e: Opcode, w: Word, virt: Word, fs: seq<Operand>,
                                         field: nat, l: Line)
    requires OperandsOk(fs) && SilentLast(fs) && OffsetsPaired(fs)
    requires l.len <= |l.data| && (field > 0 ==> l.len == |l.data|)
    requires fs != [] && !fs[0].silent && fs[0].kind.Offset?
    ensures var r := PrintFields(t, e, w, virt, fs, field, 0, l);
            r.data == Kept(e, w, fs, l) + Separated(field, Pieces(t, e, w, virt, fs)) && r.len == |r.data|
    decreases fs, 0
  {
    var l1 := PrintOne(t, e, w, virt, fs[0], field, 0, l);
    var l2 := PrintOne(t, e, w, virt, fs[1], field + 1, 1, l1);
    var s0, s1 := OperandText(t, e, fs[0], w, virt), OperandText(t, e, fs[1], w, virt);
    assert fs[1..][1..] == fs[2..];
    PrintedOne(t, e, w, virt, fs[0], field, 0, l);
    PrintedClosing(t, e, w, virt, fs[1], field + 1, l1);
    PrintedOperands(t, e, w, virt, fs[2..], field + 2, l2);
    assert Kept(e, w, fs[2..], l2) == l2.data;
    assert PrintFields(t, e, w, virt, fs, field, 0, l) == PrintFields(t, e, w, virt, fs[2..], field + 2, 0, l2);
    var head := Kept(e, w, fs, l) + (if field > 0 then "," else "");
    assert l1.data == head + s0 + "(" && l2.data == l1.data + s1 + ")";
    var piece, rest := s0 + "(" + s1 + ")", Pieces(t, e, w, virt, fs[2..]);
    assert l2.data == head + piece by { Regroup(head, s0, s1); }
    assert Pieces(t, e, w, virt, fs) == [piece] + rest;
    AppendPiece(Kept(e, w, fs, l), field, piece, rest, l2.data);
  }

  lemma PrintedOne(t: Table, e: Opcode, w: Word, virt: Word, o: Operand, field: nat, open: nat, l: Line)
    requires OperandOk(o) && l.len <= |l.data| && (field > 0 ==> l.len == |l.data|)
    ensures var r := PrintOne(t, e, w, virt, o, field, open, l);
            && r.len == |r.data|
            && r.data == (if Appended(e, o, w) then l.data else l.data[..l.len])
                         + (if field > 0 && open == 0 then "," else "")
                         + OperandText(t, e, o, w, virt) + Suffix(o, open)
  {
    if field > 0 && open == 0 {
      assert (l.data + ",")[..l.len + 1] == l.data + ",";
    }
  }

  lemma PrintedClosing(t: Table, e: Opcode, w: Word, virt: Word, o: Operand, field: nat, l: Line)
    requires OperandOk(o) && o.kind.Reg? && l.len == |l.data|
    ensures var r := PrintOne(t, e, w, virt, o, field, 1, l);
            r.len == |r.data| && r.data == l.data + OperandText(t, e, o, w, virt) + ")"
  {
    assert l.data[..l.len] == l.data;
  }

  lemma AppendPiece(kept: string, field: nat, piece: string, rest: seq<string>, data: string)
    requires data == kept + (if field > 0 then "," else "") + piece
    ensures data + Separated(1, rest) == kept + Separated(field, [piece] + rest)
  {
    var comma := if field > 0 then "," else "";
    var j, tail := Join([piece] + rest), Separated(1, rest);
    JoinCons(piece, rest);
    assert Separated(field, [piece] + rest) == comma + j;
    Reassociate(kept + comma, piece, tail);
    Reassociate(kept, comma, j);
    assert rest == [] ==> piece + tail == piece;
  }

  lemma JoinCons(piece: string, rest: seq<string>)
    ensures Join([piece] + rest) == if rest == [] then piece else piece + ("," + Join(rest))
  {
    assert ([piece] + rest)[1..] == rest;
    if rest != [] {
      Reassociate(piece, ",", Join(rest));
    }
  }

  lemma Reassociate(a: string, b: string, c: string)
    ensures a + b + c == a + (b + c)
  {
  }

  lemma Regroup(head: string, s: string, r: string)
    ensures head + s + "(" + r + ")" == head + (s + "(" + r + ")")
  {}

  lemma {:induction false} AllSilentPrinted(t: Table, e: Opcode, w: Word, virt: Word, fs: seq<Operand>,
                                            field: nat, l: Line)
    requires OperandsOk(fs) && SilentLast(fs) && (fs == [] || fs[0].silent)
    ensures PrintFields(t, e, w, virt, fs, field, 0, l) == l
    decreases fs
  {
    if fs != [] {
      AllSilentPrinted(t, e, w, virt, fs[1..], field + 1, l);
    }
  }

  // ----- reading the pieces back -----

  predicate Wordlike(pieces: seq<string>) {
    forall k :: 0 <= k < |pieces| ==> pieces[k] != [] && AllWordChars(pieces[k])
  }

  lemma {:induction false} NoWords(k: nat)
    ensures WordAt([], k) == []
  {
    if k != 0 {
      NoWords(k - 1);
    }
  }

  lemma {:induction false} WordsOfJoin(pieces: seq<string>, k: nat)
    requires Wordlike(pieces)
    ensures WordAt(Join(pieces), k) == if k < |pieces| then pieces[k] else []
    decreases k
  {
    if pieces == [] {
      NoWords(k);
    } else {
      var text, rest := FirstOfJoin(pieces);
      if k != 0 {
        WordsOfJoin(pieces[1..], k - 1);
      }
      WordsOnward(text, pieces, rest, k);
    }
  }

  lemma WordsOnward(text: string, pieces: seq<string>, rest: string, k: nat)
    requires pieces != [] && NextToken(text) == Token(pieces[0], rest)
    requires k > 0 ==> WordAt(rest, k - 1) == if k < |pieces| then pieces[1..][k - 1] else []
    ensures WordAt(text, k) == if k < |pieces| then pieces[k] else []
  {
  }

  lemma FirstOfJoin(pieces: seq<string>) returns (text: string, rest: string)
    requires pieces != [] && Wordlike(pieces)
    ensures text == Join(pieces) && rest == Join(pieces[1..]) && NextToken(text) == Token(pieces[0], rest)
  {
    text, rest := Join(pieces), Join(pieces[1..]);
    var tail := if |pieces| == 1 then [] else "," + rest;
    assert text == pieces[0] + tail by {
      assert pieces == [pieces[0]] + pieces[1..];
      JoinCons(pieces[0], pieces[1..]);
    }
    TokenReadBack(pieces[0], tail);
    assert |pieces| > 1 ==> tail[1..] == rest;
  }

  function PieceAt(pieces: seq<string>, k: nat): string {
    if k < |pieces| then pieces[k] else []
  }

  /** The words of `rest` are the pieces, and there are no more. */
  ghost predicate Spells(rest: string, pieces: seq<string>) {
    forall k: nat {:trigger PieceAt(pieces, k)} :: WordAt(rest, k) == PieceAt(pieces, k)
  }

  lemma WordsAfterBlanks(b: string, s: string, k: nat)
    requires forall c :: c in b ==> IsBlank(c)
    ensures WordAt(b + s, k) == WordAt(s, k)
  {
    SkipLeading(b, s);
  }

  lemma OperandTextWordlike(t: Table, e: Opcode, o: Operand, w: Word, virt: Word)
    requires OperandOk(o) && forall i :: 0 <= i < |t.sprs| ==> SprOk(t.sprs[i])
    ensures OperandText(t, e, o, w, virt) != [] && AllWordChars(OperandText(t, e, o, w, virt))
  {}

  lemma {:induction false} PiecesWordlike(t: Table, e: Opcode, w: Word, virt: Word, fs: seq<Operand>)
    requires OperandsOk(fs) && forall i :: 0 <= i < |t.sprs| ==> SprOk(t.sprs[i])
    ensures Wordlike(Pieces(t, e, w, virt, fs))
    decreases fs
  {
    if fs != [] && !fs[0].silent {
      OperandTextWordlike(t, e, fs[0], w, virt);
      if fs[0].kind.Offset? && |fs| > 1 {
        OperandTextWordlike(t, e, fs[1], w, virt);
        PiecesWordlike(t, e, w, virt, fs[2..]);
      } else {
        PiecesWordlike(t, e, w, virt, fs[1..]);
      }
    }
  }

  /** Without offsets, piece `k` is operand `k`; an offset leaves fewer pieces than operands. */
  lemma {:induction false} PieceOfOperand(t: Table, e: Opcode, w: Word, virt: Word, fs: seq<Operand>, k: nat)
    requires OperandsOk(fs) && SilentLast(fs) && k < |fs| && !fs[k].silent
    requires forall i :: 0 <= i < |fs| && !fs[i].silent ==> !fs[i].kind.Offset?
    ensures k < |Pieces(t, e, w, virt, fs)| && Pieces(t, e, w, virt, fs)[k] == OperandText(t, e, fs[k], w, virt)
    decreases fs
  {
    assert !fs[0].silent;
    if k != 0 {
      PieceOfOperand(t, e, w, virt, fs[1..], k - 1);
    }
  }

  lemma {:induction false} FewerPieces(t: Table, e: Opcode, w: Word, virt: Word, fs: seq<Operand>, v: nat)
    requires OperandsOk(fs) && SilentLast(fs) && OffsetsPaired(fs)
    requires v <= |fs| && (v < |fs| ==> fs[v].silent) && (v > 0 ==> !fs[v - 1].silent)
    ensures |Pieces(t, e, w, virt, fs)| <= v
    ensures (exists i :: 0 <= i < |fs| && !fs[i].silent && fs[i].kind.Offset?) ==> |Pieces(t, e, w, virt, fs)| < v
    decreases fs
  {
    if v > 0 {
      assert !fs[0].silent;
      if fs[0].kind.Offset? {
        assert v >= 2;
        FewerPieces(t, e, w, virt, fs[2..], v - 2);
      } else {
        FewerPieces(t, e, w, virt, fs[1..], v - 1);
        if i :| 0 <= i < |fs| && !fs[i].silent && fs[i].kind.Offset? {
          assert fs[1..][i - 1] == fs[i];
        }
      }
    }
  }

  // ----- one operand -----

  /** The assembler takes the operand's text: never an offset, a register up to 31, a special register
      only when it is nonzero and printed as a number, a time-base register only when it has a name. */
  predicate Legible(t: Table, o: Operand, w: Word) {
    var v := Extract(w, o.bits, o.shift);
    match o.kind
    case Offset => false
    case Reg => v <= 31
    case Spr => SwapHalves(v) != 0 && NumberedSpr(t.sprs, SwapHalves(v)).None?
    case Tbr => SwapHalves(v) == 268 || SwapHalves(v) == 269
    case _ => true
  }

  /** Nothing is lost in print: register numbers show ten bits and immediates sixteen. */
  predicate ShownWhole(o: Operand, w: Word) {
    var v := Extract(w, o.bits, o.shift);
    match o.kind
    case Spr => v < 1024
    case Tbr => v < 1024
    case Plain => v < 0x1_0000
    case _ => true
  }

  /** The operand's text is taken for the very operand it was printed from. */
  predicate Readable(t: Table, o: Operand, w: Word) {
    Legible(t, o, w) && ShownWhole(o, w)
  }

  lemma ReadBackSpr(t: Table, v: nat)
    requires forall i :: 0 <= i < |t.sprs| ==> SprOk(t.sprs[i])
    ensures var number := SwapHalves(v);
            SprValue(t.sprs, SprName(t.sprs, v))
            == if NumberedSpr(t.sprs, number).None? then v % 1024 else 0
    ensures SwapHalves(v) == 0 <==> v % 1024 == 0
  {
    var number := SwapHalves(v);
    SwapTwice(v);
    match NumberedSpr(t.sprs, number) {
      case None =>
        ReadBackDecimal(number);
        assert Digits(number, 10)[0] in Digits(number, 10);
      case Some(name) =>
        assert SprOk(SprInfo(number, name)) by {
          var i :| 0 <= i < |t.sprs| && t.sprs[i].number == number && t.sprs[i].name == name;
          assert SprOk(t.sprs[i]);
        }
        forall i | 0 <= i < |t.sprs| ensures t.sprs[i].name != Lowered(name) {
          assert SprOk(t.sprs[i]);
        }
    }
  }

  lemma NamedTbr(name: string, c: char)
    requires name == ['T', 'B', c] && (c == 'L' || c == 'U')
    ensures TbrNumber(name) == if c == 'L' then 268 else 269
  {
    var lower := Lowered(name);
    assert lower == ['t', 'b', ToLower(c)];
  }

  lemma UnnamedTbr(name: string)
    requires name == ['?', '?', '?']
    ensures TbrNumber(name) == 0
  {
    assert Lowered(name)[0] == '?';
  }

  lemma ReadBackTbr(v: nat)
    ensures var number := SwapHalves(v);
            TbrValue(TbrName(v)) == if number == 268 || number == 269 then v % 1024 else 0
    ensures SwapHalves(v) == 0 <==> v % 1024 == 0
  {
    var name := TbrName(v);
    SwapTwice(v);
    if SwapHalves(v) == 268 {
      NamedTbr(name, 'L');
    } else if SwapHalves(v) == 269 {
      NamedTbr(name, 'U');
    } else {
      UnnamedTbr(name);
    }
  }

  lemma ReadBackRegister(v: Word)
    ensures ReadNumber(RegisterDigits("r" + Digits(v, 10))) == v
    ensures ReadNumber(RegisterDigits("0")) == 0
  {
    ReadBackDecimal(v);
    assert ("r" + Digits(v, 10))[1..] == Digits(v, 10);
    ReadBackDecimal(0);
    assert Digits(0, 10) == "0";
  }

  lemma ReadBackTarget(e: Opcode, o: Operand, w: Word, virt: Word)
    requires OperandOk(o) && o.kind.Addr?
    ensures var n := ReadNumber(Hex(BranchTarget(e, o, w, virt)));
            EncodeDisplacement(if e.relative then Wrap(n - virt) else n, o.bits) == Extract(w, o.bits, o.shift)
  {
    var v, target := Extract(w, o.bits, o.shift), BranchTarget(e, o, w, virt);
    var d := DecodeDisplacement(v, o.bits);
    ExtractBounded(w, o.bits, o.shift);
    EncodeDecode(v, o.bits);
    assert ReadNumber(Hex(target)) == target by { ReadBackHex(target); }
    WrapSubtract(d, virt);
  }

  /** What was read of an operand `v`: an error unless it is legible, and otherwise no more than `v`, all of
      it exactly when it was shown whole. */
  predicate ReadsAs(p: Parsed, v: nat, legible: bool, whole: bool) {
    (p.Value? <==> legible) && (p.Value? ==> p.data <= v && (p.data == v <==> whole))
  }

  /** An operand's own text parses to an error, or to the operand as far as it was shown. */
  lemma OperandReadBack(t: Table, e: Opcode, o: Operand, w: Word, virt: Word)
    requires OperandOk(o) && !o.kind.Offset? && forall i :: 0 <= i < |t.sprs| ==> SprOk(t.sprs[i])
    ensures ReadsAs(OperandData(t, virt, e, o, OperandText(t, e, o, w, virt)), Extract(w, o.bits, o.shift),
                    Legible(t, o, w), ShownWhole(o, w))
  {
    match o.kind {
      case Addr => ReadBackTarget(e, o, w, virt);
      case Reg => RegReadBack(t, e, o, w, virt);
      case Spr => SprReadBack(t, e, o, w, virt);
      case Tbr => TbrReadBack(t, e, o, w, virt);
      case Plain => PlainReadBack(t, e, o, w, virt);
    }
  }

  lemma RegReadBack(t: Table, e: Opcode, o: Operand, w: Word, virt: Word)
    requires OperandOk(o) && o.kind.Reg?
    ensures ReadsAs(OperandData(t, virt, e, o, OperandText(t, e, o, w, virt)), Extract(w, o.bits, o.shift),
                    Legible(t, o, w), true)
  {
    FieldIsWord(w, o);
    ReadBackRegister(Extract(w, o.bits, o.shift));
  }

  lemma SprReadBack(t: Table, e: Opcode, o: Operand, w: Word, virt: Word)
    requires OperandOk(o) && o.kind.Spr? && forall i :: 0 <= i < |t.sprs| ==> SprOk(t.sprs[i])
    ensures ReadsAs(OperandData(t, virt, e, o, OperandText(t, e, o, w, virt)), Extract(w, o.bits, o.shift),
                    Legible(t, o, w), ShownWhole(o, w))
  {
    var v := Extract(w, o.bits, o.shift);
    var text := OperandText(t, e, o, w, virt);
    assert text == SprName(t.sprs, v);
    SprData(t, virt, e, o, text, OperandData(t, virt, e, o, text));
    ReadBackSpr(t, v);
    SprReads(OperandData(t, virt, e, o, text), v, SwapHalves(v), NumberedSpr(t.sprs, SwapHalves(v)).None?,
             SprValue(t.sprs, text));
  }

  lemma SprData(t: Table, addr: Word, e: Opcode, o: Operand, name: string, p: Parsed)
    requires OperandOk(o) && o.kind.Spr? && p == OperandData(t, addr, e, o, name)
    ensures p == if SprValue(t.sprs, name) == 0 then Bad(BadSpr) else Value(SprValue(t.sprs, name))
  {
  }

  lemma SprReads(p: Parsed, v: nat, number: nat, unnamed: bool, n: nat)
    requires p == (if n == 0 then Bad(BadSpr) else Value(n)) && (number == 0 <==> v % 1024 == 0)
    requires n == if unnamed then v % 1024 else 0
    ensures ReadsAs(p, v, number != 0 && unnamed, v < 1024)
  {
  }

  lemma TbrReadBack(t: Table, e: Opcode, o: Operand, w: Word, virt: Word)
    requires OperandOk(o) && o.kind.Tbr?
    ensures ReadsAs(OperandData(t, virt, e, o, OperandText(t, e, o, w, virt)), Extract(w, o.bits, o.shift),
                    Legible(t, o, w), ShownWhole(o, w))
  {
    var v := Extract(w, o.bits, o.shift);
    var p := OperandData(t, virt, e, o, TbrName(v));
    TbrRead(t, virt, e, o, v, p);
    assert OperandText(t, e, o, w, virt) == TbrName(v);
  }

  lemma TbrRead(t: Table, addr: Word, e: Opcode, o: Operand, v: nat, p: Parsed)
    requires OperandOk(o) && o.kind.Tbr? && p == OperandData(t, addr, e, o, TbrName(v))
    ensures ReadsAs(p, v, SwapHalves(v) == 268 || SwapHalves(v) == 269, v < 1024)
  {
    TbrData(t, addr, e, o, TbrName(v), p);
    ReadBackTbr(v);
    TbrReads(p, v, SwapHalves(v), TbrValue(TbrName(v)));
  }

  lemma TbrData(t: Table, addr: Word, e: Opcode, o: Operand, name: string, p: Parsed)
    requires OperandOk(o) && o.kind.Tbr? && p == OperandData(t, addr, e, o, name)
    ensures p == if TbrValue(name) == 0 then Bad(BadTbr) else Value(TbrValue(name))
  {
  }

  lemma TbrReads(p: Parsed, v: nat, number: nat, n: nat)
    requires p == (if n == 0 then Bad(BadTbr) else Value(n)) && (number == 0 <==> v % 1024 == 0)
    requires n == if number == 268 || number == 269 then v % 1024 else 0
    ensures ReadsAs(p, v, number == 268 || number == 269, v < 1024)
  {
  }

  lemma PlainReadBack(t: Table, e: Opcode, o: Operand, w: Word, virt: Word)
    requires OperandOk(o) && o.kind.Plain?
    ensures ReadsAs(OperandData(t, virt, e, o, OperandText(t, e, o, w, virt)), Extract(w, o.bits, o.shift),
                    true, ShownWhole(o, w))
  {
    ReadBackHex(Extract(w, o.bits, o.shift) % 0x1_0000);
  }

  lemma FieldIsWord(w: Word, o: Operand)
    requires OperandOk(o)
    ensures Extract(w, o.bits, o.shift) <= Ones(o.bits) <= 0x7FFF_FFFF
  {
    ExtractBounded(w, o.bits, o.shift);
    OnesMonotone(o.bits, 31);
    OnesWord();
    assert Ones(32) == 2 * Ones(31) + 1;
  }

  predicate AllLegible(t: Table, e: Opcode, w: Word) {
    forall k :: 0 <= k < |e.fields| && !e.fields[k].silent ==> Legible(t, e.fields[k], w)
  }

  predicate AllReadable(t: Table, e: Opcode, w: Word) {
    forall k :: 0 <= k < |e.fields| && !e.fields[k].silent ==> Readable(t, e.fields[k], w)
  }

  // ----- one line -----

  /** The mnemonic survives: its column is eight wide, and a longer name loses its trailing blank to
      a first operand that is written at the recorded length. */
  predicate MnemonicIntact(e: Opcode, w: Word) {
    |e.name| <= 7 || e.fields == [] || e.fields[0].silent || Appended(e, e.fields[0], w)
  }

  /** What a user would type back: the line without its address margin. */
  function Instruction(t: Table, w: Word, a: Word): string
    requires TableOk(t)
  {
    var line := Disassemble(t, w, a);
    if |line| < MARGIN then [] else line[MARGIN..]
  }

  lemma PrintedInstruction(t: Table, w: Word, a: Word, i: nat)
    requires TableOk(t) && FirstMatch(t.opcodes, w) == Some(i)
    ensures EntryOk(t.opcodes[i])
    ensures var e := t.opcodes[i];
            var pieces := Pieces(t, e, w, a, e.fields);
            && Instruction(t, w, a) == (if MnemonicIntact(e, w) then Padded(e.name) else e.name) + Join(pieces)
            && (!MnemonicIntact(e, w) ==> |e.name| == 8 && pieces != [])
  {
    var e := t.opcodes[i];
    assert EntryOk(e);
    PrintedOperands(t, e, w, a, e.fields, 0, Line(Margin(a) + Padded(e.name), MARGIN + 8));
    KeptMnemonic(e, w, Margin(a));
    DropMargin(Margin(a), if MnemonicIntact(e, w) then Padded(e.name) else e.name, Join(Pieces(t, e, w, a, e.fields)));
  }

  lemma KeptMnemonic(e: Opcode, w: Word, margin: string)
    requires NameOk(e.name) && |margin| == MARGIN
    ensures Kept(e, w, e.fields, Line(margin + Padded(e.name), MARGIN + 8))
            == margin + if MnemonicIntact(e, w) then Padded(e.name) else e.name
    ensures !MnemonicIntact(e, w) ==> |e.name| == 8
  {
    var data := margin + Padded(e.name);
    if |e.name| <= 7 {
      assert data[..MARGIN + 8] == data;
    } else {
      assert data[..MARGIN + 8] == margin + e.name;
    }
  }

  lemma DropMargin(margin: string, s: string, r: string)
    requires |margin| == MARGIN
    ensures (margin + s + r)[MARGIN..] == s + r
  {}

  lemma NameReadBack(name: string, s: string, k: nat)
    requires NameOk(name)
    ensures var token := NextToken(Padded(name) + s);
            token.word == name && Lowered(name) == name && WordAt(token.rest, k) == WordAt(s, k)
  {
    var blanks := Spaces(if |name| < 7 then 7 - |name| else 0) + " ";
    assert Padded(name) + s == name + (blanks + s);
    TokenReadBack(name, blanks + s);
    WordsAfterBlanks(blanks, s, k);
  }

  /** A mnemonic that runs into its first operand names no row. */
  lemma CutMnemonic(t: Table, name: string, pieces: seq<string>)
    requires TableOk(t) && NameOk(name) && |name| == 8 && pieces != [] && Wordlike(pieces)
    ensures NextToken(name + Join(pieces)).word != [] && NamedRow(t, name + Join(pieces)).None?
  {
    var word := name + pieces[0];
    var rest := FirstPiece(name, pieces);
    TokenReadBack(word, rest);
    LongWord(t, Lowered(word));
  }

  /** So a line whose mnemonic is cut is rejected, whatever its word and address. */
  lemma CutLine(t: Table, w: Word, a: Word, i: nat)
    requires TableOk(t) && FirstMatch(t.opcodes, w) == Some(i) && !MnemonicIntact(t.opcodes[i], w)
    ensures Assemble(t, a, Instruction(t, w, a)) == AsmResult(0, BadOpcode)
  {
    var e := t.opcodes[i];
    PrintedInstruction(t, w, a, i);
    PiecesWordlike(t, e, w, a, e.fields);
    CutMnemonic(t, e.name, Pieces(t, e, w, a, e.fields));
  }

  lemma FirstPiece(name: string, pieces: seq<string>) returns (rest: string)
    requires pieces != []
    ensures name + Join(pieces) == (name + pieces[0]) + rest && (rest == [] || rest[0] == ',')
  {
    rest := if |pieces| == 1 then [] else "," + Join(pieces[1..]);
    assert Join(pieces) == pieces[0] + rest;
  }

  lemma LongWord(t: Table, word: string)
    requires TableOk(t) && |word| > 8
    ensures FirstNamed(t.opcodes, word).None?
  {
    forall i | 0 <= i < |t.opcodes| ensures t.opcodes[i].name != word {
      assert EntryOk(t.opcodes[i]);
    }
  }

  /** Two words of one row that agree on its visible fields differ at most outside mask and fields. */
  lemma SameFields(e: Opcode, r: Word, w: Word)
    requires EntryOk(e) && Matches(e, r) && Matches(e, w)
    requires And(r, Or(e.mask, VisibleBits(e.fields))) == r
    requires forall k :: 0 <= k < |e.fields| && !e.fields[k].silent ==>
               Extract(r, e.fields[k].bits, e.fields[k].shift) == Extract(w, e.fields[k].bits, e.fields[k].shift)
    ensures r == And(w, Or(e.mask, VisibleBits(e.fields)))
  {
    var all := Or(e.mask, VisibleBits(e.fields));
    forall i: nat ensures Bit(r, i) == Bit(And(w, all), i) {
      BitAnd(r, all, i);
      BitAnd(w, all, i);
      BitOr(e.mask, VisibleBits(e.fields), i);
      if Bit(VisibleBits(e.fields), i) {
        SameVisibleBit(e.fields, r, w, i);
      }
      BitAnd(r, e.mask, i);
      BitAnd(w, e.mask, i);
    }
    SameBits(r, And(w, all));
  }

  lemma SameVisibleBit(fs: seq<Operand>, r: Word, w: Word, i: nat)
    requires Bit(VisibleBits(fs), i)
    requires forall k :: 0 <= k < |fs| && !fs[k].silent ==>
               Extract(r, fs[k].bits, fs[k].shift) == Extract(w, fs[k].bits, fs[k].shift)
    ensures Bit(r, i) == Bit(w, i)
  {
    VisibleBit(fs, i);
    var k :| 0 <= k < |fs| && !fs[k].silent && fs[k].shift <= i < fs[k].shift + fs[k].bits;
    BitExtract(r, fs[k].bits, fs[k].shift, i - fs[k].shift);
    BitExtract(w, fs[k].bits, fs[k].shift, i - fs[k].shift);
  }

  // ----- the round trip -----

  /** When the assembler reads back what was printed for a word of row `i`: the row is the first of
      its name, and its printed form can be read back. */
  predicate Reassembles(t: Table, i: nat, w: Word)
    requires i < |t.opcodes|
  {
    FirstNamed(t.opcodes, t.opcodes[i].name) == Some(i) && ReadsBack(t, t.opcodes[i], w)
  }

  /** The printed form of a word of row `e` can be read back: the mnemonic is intact, every operand is
      readable, and no bit lies outside the row's mask and written operands. */
  predicate ReadsBack(t: Table, e: Opcode, w: Word) {
    MnemonicIntact(e, w) && AllReadable(t, e, w) && And(w, Or(e.mask, VisibleBits(e.fields))) == w
  }

  /** The words of an intact line are the pieces of its operand list, so its operands are free of
      errors exactly when each of them is legible, and then hold what was shown. */
  lemma PrintedErrors(t: Table, e: Opcode, w: Word, a: Word, rest: string)
    requires EntryOk(e) && forall i :: 0 <= i < |t.sprs| ==> SprOk(t.sprs[i])
    requires Spells(rest, Pieces(t, e, w, a, e.fields))
    ensures NoErrors(t, a, e, e.fields, rest, |e.fields|) <==> AllLegible(t, e, w)
    ensures AllLegible(t, e, w) ==>
              forall k :: 0 <= k < |e.fields| && !e.fields[k].silent ==> FieldRead(t, e, w, a, rest, k)
  {
    if i :| 0 <= i < |e.fields| && !e.fields[i].silent && e.fields[i].kind.Offset? {
      OffsetError(t, e, w, a, rest, i);
      OffsetIllegible(t, e.fields[i], w);
    } else {
      forall k | 0 <= k < |e.fields| && !e.fields[k].silent
        ensures ErrorOf(t, a, e, e.fields[k], WordAt(rest, k)) == NoError <==> Legible(t, e.fields[k], w)
        ensures Legible(t, e.fields[k], w) ==> FieldRead(t, e, w, a, rest, k)
      {
        OperandError(t, e, w, a, rest, k);
      }
    }
  }

  lemma OffsetIllegible(t: Table, o: Operand, w: Word)
    requires o.kind.Offset?
    ensures !Legible(t, o, w)
  {
  }

  /** Field `k` is read without an error, and as it was exactly when it was shown whole. */
  predicate FieldRead(t: Table, e: Opcode, w: Word, a: Word, rest: string, k: nat)
    requires k < |e.fields| && !e.fields[k].silent && OperandOk(e.fields[k])
  {
    var o := e.fields[k];
    && ErrorOf(t, a, e, o, WordAt(rest, k)) == NoError
    && (FieldMeaning(t, a, e, rest, k) == Extract(w, o.bits, o.shift) <==> ShownWhole(o, w))
  }

  /** An offset swallows its register's comma: the last operand finds no word. */
  lemma OffsetError(t: Table, e: Opcode, w: Word, a: Word, rest: string, i: nat)
    requires EntryOk(e) && forall i :: 0 <= i < |t.sprs| ==> SprOk(t.sprs[i])
    requires Spells(rest, Pieces(t, e, w, a, e.fields))
    requires i < |e.fields| && !e.fields[i].silent && e.fields[i].kind.Offset?
    ensures !NoErrors(t, a, e, e.fields, rest, |e.fields|)
  {
    var fs, pieces := e.fields, Pieces(t, e, w, a, e.fields);
    var v := LastVisible(fs, i);
    FewerPieces(t, e, w, a, fs, v);
    assert PieceAt(pieces, v - 1) == [];
    assert ErrorOf(t, a, e, fs[v - 1], WordAt(rest, v - 1)) == NumOperands;
  }

  lemma OperandError(t: Table, e: Opcode, w: Word, a: Word, rest: string, k: nat)
    requires EntryOk(e) && forall i :: 0 <= i < |t.sprs| ==> SprOk(t.sprs[i])
    requires Spells(rest, Pieces(t, e, w, a, e.fields))
    requires forall i :: 0 <= i < |e.fields| && !e.fields[i].silent ==> !e.fields[i].kind.Offset?
    requires k < |e.fields| && !e.fields[k].silent
    ensures ErrorOf(t, a, e, e.fields[k], WordAt(rest, k)) == NoError <==> Legible(t, e.fields[k], w)
    ensures Legible(t, e.fields[k], w) ==> FieldRead(t, e, w, a, rest, k)
  {
    var fs, o, pieces := e.fields, e.fields[k], Pieces(t, e, w, a, e.fields);
    assert WordAt(rest, k) == OperandText(t, e, o, w, a) && WordAt(rest, k) != [] by {
      PieceOfOperand(t, e, w, a, fs, k);
      assert PieceAt(pieces, k) == OperandText(t, e, o, w, a);
      OperandTextWordlike(t, e, o, w, a);
    }
    OperandReadBack(t, e, o, w, a);
    FieldIsWord(w, o);
    if Legible(t, o, w) {
      LowBits(OperandData(t, a, e, o, OperandText(t, e, o, w, a)).data, o.bits);
    }
  }

  lemma LastVisible(fs: seq<Operand>, i: nat) returns (v: nat)
    requires SilentLast(fs) && i < |fs| && !fs[i].silent
    ensures 0 < v <= |fs| && !fs[v - 1].silent && (v < |fs| ==> fs[v].silent)
  {
    v := i + 1;
    while v < |fs| && !fs[v].silent
      invariant 0 < v <= |fs| && !fs[v - 1].silent
    {
      v := v + 1;
    }
  }

  /** An intact line whose row is the first of its name: it is rejected when an operand is not legible;
      it gives the word without its stray bits when all are readable; otherwise it gives another word. */
  lemma IntactLine(t: Table, w: Word, a: Word, i: nat)
    requires TableOk(t) && FirstMatch(t.opcodes, w) == Some(i)
    requires MnemonicIntact(t.opcodes[i], w) && FirstNamed(t.opcodes, t.opcodes[i].name) == Some(i)
    ensures var e, r := t.opcodes[i], Assemble(t, a, Instruction(t, w, a));
            if !AllLegible(t, e, w) then r.word == 0 && r.err != NoError
            else if AllReadable(t, e, w) then r == AsmResult(And(w, Or(e.mask, VisibleBits(e.fields))), NoError)
            else r.err == NoError && r.word != w
  {
    var e, text := t.opcodes[i], Instruction(t, w, a);
    PrintedInstruction(t, w, a, i);
    var pieces, rest := Pieces(t, e, w, a, e.fields), NextToken(text).rest;
    PiecesWordlike(t, e, w, a, e.fields);
    forall k: nat ensures WordAt(rest, k) == PieceAt(pieces, k) {
      NameReadBack(e.name, Join(pieces), k);
      WordsOfJoin(pieces, k);
    }
    assert NamedRow(t, text) == Some(i) by { NameReadBack(e.name, Join(pieces), 0); }
    PrintedErrors(t, e, w, a, rest);
    if Accepts(t, a, text) {
      AcceptedIntact(t, w, a, i, text);
    } else {
      RejectedLine(t, a, text);
    }
  }

  /** The fields of an accepted line are those of the word exactly when its operands were shown whole. */
  lemma AcceptedIntact(t: Table, w: Word, a: Word, i: nat, text: string)
    requires TableOk(t) && FirstMatch(t.opcodes, w) == Some(i) && NamedRow(t, text) == Some(i)
    requires EntryOk(t.opcodes[i]) && Accepts(t, a, text) && AllLegible(t, t.opcodes[i], w)
    requires var e := t.opcodes[i];
             forall k :: 0 <= k < |e.fields| && !e.fields[k].silent ==> FieldRead(t, e, w, a, NextToken(text).rest, k)
    ensures var e, r := t.opcodes[i], Assemble(t, a, text);
            if AllReadable(t, e, w) then r == AsmResult(And(w, Or(e.mask, VisibleBits(e.fields))), NoError)
            else r.err == NoError && r.word != w
  {
    var e := t.opcodes[i];
    AcceptedLine(t, a, text);
    var r := Assemble(t, a, text).word;
    forall k | 0 <= k < |e.fields| && !e.fields[k].silent
      ensures Extract(r, e.fields[k].bits, e.fields[k].shift) == Extract(w, e.fields[k].bits, e.fields[k].shift) <==>
              ShownWhole(e.fields[k], w)
    {
      OperandValueAt(e.fields, r, k);
    }
    if AllReadable(t, e, w) {
      SameFields(e, r, w);
    }
  }

  /** THE TEXT ROUND TRIP.  For every well-formed table, word and address: assembling at the same
      address the instruction that the disassembler printed gives back exactly that word if and only
      if the word decodes and its row and operands satisfy `Reassembles`. */
  lemma TextRoundTrip(t: Table, w: Word, a: Word)
    requires TableOk(t)
    ensures Assemble(t, a, Instruction(t, w, a)) == AsmResult(w, NoError) <==>
            FirstMatch(t.opcodes, w).Some? && Reassembles(t, FirstMatch(t.opcodes, w).value, w)
  {
    var text := Instruction(t, w, a);
    match FirstMatch(t.opcodes, w) {
      case None => UndecodedLine(t, w, a);
      case Some(i) =>
        var e := t.opcodes[i];
        PrintedInstruction(t, w, a, i);
        if !MnemonicIntact(e, w) {
          CutLine(t, w, a, i);
        } else if FirstNamed(t.opcodes, e.name) == Some(i) {
          IntactLine(t, w, a, i);
        } else {
          NameReadBack(e.name, Join(Pieces(t, e, w, a, e.fields)), 0);
          if Accepts(t, a, text) {
            AcceptedLine(t, a, text);
          } else {
            RejectedLine(t, a, text);
          }
        }
    }
  }

  /** A word that no row matches is shown as `.long`, which no row is called. */
  lemma UndecodedLine(t: Table, w: Word, a: Word)
    requires TableOk(t) && FirstMatch(t.opcodes, w).None?
    ensures Assemble(t, a, Instruction(t, w, a)) == AsmResult(0, BadOpcode)
  {
    var long, number := ".long", " 0x" + FixedHex(w, 8);
    assert Illegal(w) == Spaces(8) + (long + number);
    assert Instruction(t, w, a) == Illegal(w);
    DirectiveRejected(t, Spaces(8), long, number);
  }

  lemma DirectiveRejected(t: Table, blanks: string, word: string, rest: string)
    requires TableOk(t) && (forall c :: c in blanks ==> c == ' ')
    requires word != [] && AllWordChars(word) && word[0] == '.' && rest != [] && rest[0] == ' '
    ensures NextToken(blanks + (word + rest)).word != [] && NamedRow(t, blanks + (word + rest)).None?
  {
    SkipLeading(blanks, word + rest);
    TokenReadBack(word, rest);
    assert Lowered(word)[0] == '.';
    forall i | 0 <= i < |t.opcodes| ensures t.opcodes[i].name != Lowered(word) {
      assert EntryOk(t.opcodes[i]);
    }
  }

  /** Whatever a line assembles to decodes and re-assembles without loss once it is printed, unless
      its mnemonic or an operand is one the assembler cannot read back: stray bits are never the cause. */
  lemma PrintedFormStable(t: Table, a: Word, text: string, w: Word)
    requires TableOk(t) && Accepts(t, a, text) && Assemble(t, a, text).word == w
    ensures var i := NamedRow(t, text).value; var e := t.opcodes[i];
            && FirstMatch(t.opcodes, w) == Some(i)
            && (Assemble(t, a, Instruction(t, w, a)) == AsmResult(w, NoError) <==>
                MnemonicIntact(e, w) && AllReadable(t, e, w))
  {
    AcceptedLine(t, a, text);
    TextRoundTrip(t, w, a);
  }

  // ----- what a line shows -----

  /** Sixteen to the power `n`. */
  function HexRange(n: nat): nat {
    if n == 0 then 1 else 16 * HexRange(n - 1)
  }

  lemma {:induction false} FixedHexReads(x: Word, n: nat, r: string)
    requires x < HexRange(n)
    ensures ReadDigits(FixedHex(x, n) + r, 16, 0) == ReadDigits(r, 16, x)
    decreases n
  {
    if n == 0 {
      assert FixedHex(x, n) + r == r;
    } else {
      var last := [DigitChar(x % 16)];
      assert FixedHex(x, n) + r == FixedHex(x / 16, n - 1) + (last + r);
      FixedHexReads(x / 16, n - 1, last + r);
      assert (last + r)[1..] == r;
      Recompose(x, 16);
    }
  }

  /** Eight hexadecimal digits read as the word they were printed from. */
  lemma EightDigits(x: Word, s: string)
    requires s == FixedHex(x, 8)
    ensures Strtoul(s, 16) == x
  {
    assert HexRange(8) == 0x1_0000_0000;
    FixedHexReads(x, 8, []);
    assert s + [] == s;
    if s[0] == '0' {
      assert s[1] in s && s[1] != 'x' by { FixedHexDigits(x, 8); }
      LeadingZero(s, 16);
    }
  }

  lemma {:induction false} FixedHexDigits(x: nat, n: nat)
    ensures 'x' !in FixedHex(x, n)
    decreases n
  {
    if n > 0 {
      FixedHexDigits(x / 16, n - 1);
    }
  }

  /** Every line starts with its address in eight hexadecimal digits, a colon and four blanks. */
  lemma AddressShown(t: Table, w: Word, virt: Word)
    requires TableOk(t)
    ensures var line := Disassemble(t, w, virt);
            |line| >= 13 && line[8..13] == ":    " && Strtoul(line[..8], 16) == virt
  {
    var line := Disassemble(t, w, virt);
    MarginKept(t, w, virt);
    var margin := Margin(virt);
    assert line[..13] == margin;
    assert margin[..8] == FixedHex(virt, 8) && margin[8..13] == ":    ";
    assert line[..8] == line[..13][..8] && line[8..13] == line[..13][8..13];
    EightDigits(virt, line[..8]);
  }

  lemma MarginKept(t: Table, w: Word, virt: Word)
    requires TableOk(t)
    ensures Margin(virt) <= Disassemble(t, w, virt)
  {
    if FirstMatch(t.opcodes, w).Some? {
      var e := t.opcodes[FirstMatch(t.opcodes, w).value];
      assert EntryOk(e);
      PrintedOperands(t, e, w, virt, e.fields, 0, Line(Margin(virt) + Padded(e.name), MARGIN + 8));
    }
  }

  /** A word without a row shows as `.long` and its eight digits. */
  lemma WordShown(t: Table, w: Word, a: Word)
    requires TableOk(t) && FirstMatch(t.opcodes, w).None?
    ensures var s := Instruction(t, w, a);
            |s| == 24 && s[..16] == "        .long 0x" && Strtoul(s[16..], 16) == w
  {
    var s := Instruction(t, w, a);
    assert s == Illegal(w);
    assert Spaces(8) == "        ";
    assert s[..16] == "        .long 0x" && s[16..] == FixedHex(w, 8);
    EightDigits(w, s[16..]);
  }

  /** An immediate or a displacement shows as a hexadecimal number: its low sixteen bits. */
  lemma NumberShown(t: Table, e: Opcode, o: Operand, w: Word, virt: Word)
    requires OperandOk(o) && (o.kind.Offset? || o.kind.Plain?)
    ensures var s := OperandText(t, e, o, w, virt);
            "0x" <= s && '(' !in s && ReadNumber(s) == Extract(w, o.bits, o.shift) % 0x1_0000
  {
    var x: Word := Extract(w, o.bits, o.shift) % 0x1_0000;
    ReadBackHex(x);
    forall c | c in Digits(x, 16) ensures c != '(' {
      assert IsHexDigit(c);
    }
  }

  /** A register shows as "r" and its number, except that rA shows as a bare 0 where 0 means no register. */
  lemma RegisterShown(t: Table, e: Opcode, o: Operand, w: Word, virt: Word)
    requires OperandOk(o) && o.kind.Reg?
    ensures var s, v := OperandText(t, e, o, w, virt), Extract(w, o.bits, o.shift);
            if v == 0 && o.field == 20 && e.ra0 then s == "0"
            else "r" <= s && ReadNumber(s[1..]) == v
  {
    FieldIsWord(w, o);
    var v: Word := Extract(w, o.bits, o.shift);
    ReadBackDecimal(v);
    assert ("r" + Digits(v, 10))[1..] == Digits(v, 10);
  }

  /** A special register shows as the first name that the table has for its number, or as that number. */
  lemma SprShown(t: Table, e: Opcode, o: Operand, w: Word, virt: Word, number: nat)
    requires OperandOk(o) && o.kind.Spr?
    requires var v := Extract(w, o.bits, o.shift); number == v / 32 % 32 + 32 * (v % 32)
    ensures var s := OperandText(t, e, o, w, virt);
            && (forall i: nat :: FirstOfNumber(t.sprs, number, i) ==> s == t.sprs[i].name)
            && ((forall i :: 0 <= i < |t.sprs| ==> t.sprs[i].number != number) ==> ReadNumber(s) == number)
  {
    SwapArithmetic(Extract(w, o.bits, o.shift));
    forall i: nat | FirstOfNumber(t.sprs, number, i)
      ensures NumberedSpr(t.sprs, number) == Some(t.sprs[i].name)
    {
      FirstNumbered(t.sprs, number, i);
    }
    ReadBackDecimal(number);
  }

  /** Entry `i` is the first with that number. */
  predicate FirstOfNumber(sprs: seq<SprInfo>, number: nat, i: nat) {
    i < |sprs| && sprs[i].number == number && forall j :: 0 <= j < i ==> sprs[j].number != number
  }

  lemma {:induction false} FirstNumbered(sprs: seq<SprInfo>, number: nat, i: nat)
    requires FirstOfNumber(sprs, number, i)
    ensures NumberedSpr(sprs, number) == Some(sprs[i].name)
  {
    if i > 0 {
      FirstNumbered(sprs[1..], number, i - 1);
    }
  }

  /** The time-base registers show as TBL and TBU, any other number as question marks. */
  lemma TbrShown(t: Table, e: Opcode, o: Operand, w: Word, virt: Word, number: nat)
    requires OperandOk(o) && o.kind.Tbr?
    requires var v := Extract(w, o.bits, o.shift); number == v / 32 % 32 + 32 * (v % 32)
    ensures OperandText(t, e, o, w, virt) == if number == 268 then "TBL" else if number == 269 then "TBU" else "???"
  {
    SwapArithmetic(Extract(w, o.bits, o.shift));
  }

  /** A branch field shows as its target: four times the signed field, from the instruction's own address
      where the row is relative. */
  lemma TargetShown(t: Table, e: Opcode, o: Operand, w: Word, virt: Word)
    requires OperandOk(o) && o.kind.Addr?
    ensures var v, half := Extract(w, o.bits, o.shift), Shl(1, o.bits - 1);
            ReadNumber(OperandText(t, e, o, w, virt))
            == Wrap(4 * (if v >= half then v - 2 * half else v) + if e.relative then virt else 0)
  {
    var target := BranchTarget(e, o, w, virt);
    assert ReadNumber(OperandText(t, e, o, w, virt)) == target by { ReadBackHex(target); }
    ExtractBounded(w, o.bits, o.shift);
    TargetNumber(e, o, w, virt, Extract(w, o.bits, o.shift), Shl(1, o.bits - 1));
  }

  lemma TargetNumber(e: Opcode, o: Operand, w: Word, virt: Word, v: nat, half: int)
    requires OperandOk(o) && o.kind.Addr? && v == Extract(w, o.bits, o.shift) && v <= Ones(o.bits)
    requires half == Shl(1, o.bits - 1)
    ensures BranchTarget(e, o, w, virt)
         == Wrap(4 * (if v >= half then v - 2 * half else v) + if e.relative then virt else 0)
  {
    DecodeArithmetic(v, o.bits, half);
    if e.relative {
      WrapAdd(4 * if v >= half then v - 2 * half else v, virt);
    }
  }

  /** A displacement and its register make one piece: the displacement, and the register in parentheses. */
  lemma {:induction false} OffsetPiece(t: Table, e: Opcode, w: Word, virt: Word, fs: seq<Operand>, k: nat)
    requires OperandsOk(fs) && OffsetsPaired(fs) && k < |fs| && !fs[k].silent && fs[k].kind.Offset?
    requires forall i :: 0 <= i < k ==> !fs[i].silent && !fs[i].kind.Offset?
    ensures k + 1 < |fs| && k < |Pieces(t, e, w, virt, fs)|
    ensures Pieces(t, e, w, virt, fs)[k]
            == OperandText(t, e, fs[k], w, virt) + "(" + OperandText(t, e, fs[k + 1], w, virt) + ")"
    decreases k
  {
    if k > 0 {
      assert forall i :: 0 <= i < |fs| - 1 ==> fs[1..][i] == fs[i + 1];
      OffsetPiece(t, e, w, virt, fs[1..], k - 1);
    }
  }

  /** So what stands before the parenthesis reads as the displacement, and what stands inside as the base
      register: what a line shows of a load or store determines both fields. */
  lemma OffsetShown(t: Table, e: Opcode, w: Word, virt: Word, k: nat) returns (d: string, r: string)
    requires EntryOk(e) && k < |e.fields| && !e.fields[k].silent && e.fields[k].kind.Offset?
    requires forall i :: 0 <= i < k ==> !e.fields[i].silent && !e.fields[i].kind.Offset?
    ensures k + 1 < |e.fields| && k < |Pieces(t, e, w, virt, e.fields)|
    ensures Pieces(t, e, w, virt, e.fields)[k] == d + "(" + r + ")" && '(' !in d
    ensures ReadNumber(d) == Extract(w, e.fields[k].bits, e.fields[k].shift) % 0x1_0000
    ensures var b := e.fields[k + 1]; var v := Extract(w, b.bits, b.shift);
            if v == 0 && b.field == 20 && e.ra0 then r == "0" else "r" <= r && ReadNumber(r[1..]) == v
  {
    OffsetPiece(t, e, w, virt, e.fields, k);
    d, r := OperandText(t, e, e.fields[k], w, virt), OperandText(t, e, e.fields[k + 1], w, virt);
    NumberShown(t, e, e.fields[k], w, virt);
    RegisterShown(t, e, e.fields[k + 1], w, virt);
  }

  /** The operands of a load or store: a register, a displacement, the base register. */
  predicate LoadOperands(e: Opcode, x: Operand, d: Operand, b: Operand) {
    && e.fields == [x, d, b] && !x.silent && !d.silent && !b.silent
    && OperandOk(x) && OperandOk(d) && OperandOk(b)
    && x.kind.Reg? && d.kind.Offset? && b.kind.Reg?
  }

  /** Their texts. */
  predicate LoadTexts(t: Table, e: Opcode, w: Word, a: Word, x: Operand, d: Operand, b: Operand,
                      xs: string, ds: string, bs: string)
    requires LoadOperands(e, x, d, b)
  {
    && xs == OperandText(t, e, x, w, a)
    && ds == OperandText(t, e, d, w, a)
    && bs == OperandText(t, e, b, w, a)
  }

  lemma LoadPieces(t: Table, e: Opcode, w: Word, a: Word, x: Operand, d: Operand, b: Operand,
                   xs: string, ds: string, bs: string)
    requires EntryOk(e) && LoadOperands(e, x, d, b) && LoadTexts(t, e, w, a, x, d, b, xs, ds, bs)
    ensures Pieces(t, e, w, a, e.fields) == [xs, ds + "(" + bs + ")"]
  {
    var fs := e.fields;
    assert fs[1..] == [d, b] && fs[1..][2..] == [];
    assert fs[1..][0] == d && fs[1..][1] == b;
    assert Pieces(t, e, w, a, fs[1..]) == [ds + "(" + bs + ")"];
  }

  lemma JoinTwo(p: string, q: string)
    ensures Join([p, q]) == p + "," + q
  {
    assert [p, q][1..] == [q];
  }

  lemma LoadLine(t: Table, w: Word, a: Word, i: nat, pieces: seq<string>, p: string, q: string)
    requires TableOk(t) && FirstMatch(t.opcodes, w) == Some(i) && |t.opcodes[i].name| <= 7
    requires EntryOk(t.opcodes[i]) && pieces == Pieces(t, t.opcodes[i], w, a, t.opcodes[i].fields) && pieces == [p, q]
    ensures Instruction(t, w, a) == Padded(t.opcodes[i].name) + (p + "," + q)
  {
    PrintedInstruction(t, w, a, i);
    JoinTwo(p, q);
  }

  lemma LoadReads(t: Table, e: Opcode, w: Word, a: Word, x: Operand, d: Operand, b: Operand,
                  xs: string, ds: string, bs: string)
    requires LoadOperands(e, x, d, b) && LoadTexts(t, e, w, a, x, d, b, xs, ds, bs) && x.field != 20
    ensures "r" <= xs && ReadNumber(xs[1..]) == Extract(w, x.bits, x.shift)
    ensures ReadNumber(ds) == Extract(w, d.bits, d.shift) % 0x1_0000
    ensures var v := Extract(w, b.bits, b.shift);
            if v == 0 && b.field == 20 && e.ra0 then bs == "0" else "r" <= bs && ReadNumber(bs[1..]) == v
  {
    RegisterShown(t, e, x, w, a);
    NumberShown(t, e, d, w, a);
    RegisterShown(t, e, b, w, a);
  }

  /** A mnemonic takes eight columns, blanks after it. */
  lemma MnemonicColumns(name: string)
    requires |name| <= 7
    ensures var s := Padded(name); |s| == 8 && name <= s && forall i :: |name| <= i < 8 ==> s[i] == ' '
  {
  }

  /** A load or store is listed as its mnemonic, its register, a comma, its displacement, and its base
      register in parentheses; each of them reads as the field. */
  lemma LoadListed(t: Table, w: Word, a: Word, i: nat, e: Opcode, x: Operand, d: Operand, b: Operand)
    returns (xs: string, ds: string, bs: string)
    requires TableOk(t) && FirstMatch(t.opcodes, w) == Some(i) && e == t.opcodes[i]
    requires LoadOperands(e, x, d, b) && |e.name| <= 7 && x.field != 20
    ensures Instruction(t, w, a) == Padded(e.name) + (xs + "," + (ds + "(" + bs + ")"))
    ensures "r" <= xs && ReadNumber(xs[1..]) == Extract(w, x.bits, x.shift)
    ensures ReadNumber(ds) == Extract(w, d.bits, d.shift) % 0x1_0000
    ensures var v := Extract(w, b.bits, b.shift);
            if v == 0 && b.field == 20 && e.ra0 then bs == "0" else "r" <= bs && ReadNumber(bs[1..]) == v
  {
    assert EntryOk(e);
    xs, ds, bs := OperandText(t, e, x, w, a), OperandText(t, e, d, w, a), OperandText(t, e, b, w, a);
    assert LoadTexts(t, e, w, a, x, d, b, xs, ds, bs);
    LoadPieces(t, e, w, a, x, d, b, xs, ds, bs);
    LoadLine(t, w, a, i, Pieces(t, e, w, a, e.fields), xs, ds + "(" + bs + ")");
    LoadReads(t, e, w, a, x, d, b, xs, ds, bs);
  }
}
