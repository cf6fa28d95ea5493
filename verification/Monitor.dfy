/**
  The `as` and `ds` commands of common/cmd_bedbug.c.  Memory is bytes; words are read and written
  big-endian, at any alignment, and addresses wrap around at 2^32.
 */
module Monitor {
  import opened Wrappers
  import opened Words
  import opened Tables
  import opened Assembler
  import opened Disassembler

  type Byte = x: nat | x < 256

  type Memory = Word -> Byte

  /** Byte `i` of a word, the most significant first. */
  function ByteOf(w: Word, i: nat): Byte
    requires i < 4
  {
    if i == 0 then w / 0x100_0000
    else if i == 1 then w / 0x1_0000 % 256
    else if i == 2 then w / 0x100 % 256
    else w % 256
  }

  /** The word at an address. */
  function Peek(mem: Memory, addr: Word): Word {
    mem(addr) * 0x100_0000 + mem(Wrap(addr + 1)) * 0x1_0000 + mem(Wrap(addr + 2)) * 0x100 + mem(Wrap(addr + 3))
  }

  /** How far a byte lies behind an address, going round. */
  function Behind(x: Word, addr: Word): Word {
    Wrap(x - addr)
  }

  function Poke(mem: Memory, addr: Word, w: Word): Memory {
    x => if Behind(x, addr) < 4 then ByteOf(w, Behind(x, addr)) else mem(x)
  }

  lemma BytesOfWord(w: Word)
    ensures ByteOf(w, 0) * 0x100_0000 + ByteOf(w, 1) * 0x1_0000 + ByteOf(w, 2) * 0x100 + ByteOf(w, 3) == w
  {
  }

  /** Four bytes that are those of a word read as that word. */
  lemma PeekBytes(mem: Memory, addr: Word, w: Word)
    requires forall i: nat :: i < 4 ==> mem(Wrap(addr + i)) == ByteOf(w, i)
    ensures Peek(mem, addr) == w
  {
    assert Wrap(addr + 0) == addr;
    assert mem(Wrap(addr + 0)) == ByteOf(w, 0);
    BytesOfWord(w);
  }

  function Slot(start: Word, k: nat): Word {
    Wrap(start + 4 * k)
  }

  // ----- as -----

  /** A line that is empty or a single period ends the session. */
  predicate Ends(line: string) {
    line == [] || line == "."
  }

  datatype Verdict = Accepted(word: Word) | Rejected

  /** How a line fares at an address. */
  type Judge = (Word, string) -> Verdict

  function AssemblerJudge(t: Table): Judge
    requires TableOk(t)
  {
    (addr: Word, line: string) =>
      var word := Assemble(t, addr, line).word;
      if word == 0 then Rejected else Accepted(Wrap(word))
  }

  /** Where the line after a verdict goes. */
  function Onward(addr: Word, v: Verdict): Word {
    if v.Accepted? then Following(addr) else addr
  }

  /** The verdicts on the lines of an assembly session from address `addr`, up to its end. */
  function Transcript(judge: Judge, addr: Word, lines: seq<string>): (vs: seq<Verdict>)
    ensures |vs| <= |lines|
    decreases |lines|
  {
    if lines == [] || Ends(lines[0]) then []
    else [judge(addr, lines[0])] + Transcript(judge, Onward(addr, judge(addr, lines[0])), lines[1..])
  }

  /** The accepted words, in order. */
  function Kept(vs: seq<Verdict>): seq<Word> {
    if vs == [] then []
    else if vs[0].Accepted? then [vs[0].word] + Kept(vs[1..])
    else Kept(vs[1..])
  }

  /** Memory with words stored one after the other. */
  function Stored(mem: Memory, addr: Word, ws: seq<Word>): Memory
    decreases |ws|
  {
    if ws == [] then mem else Stored(Poke(mem, addr, ws[0]), Following(addr), ws[1..])
  }

  lemma StoreFirst(mem: Memory, addr: Word, v: Verdict, vs: seq<Verdict>)
    requires vs != [] && v == vs[0]
    ensures Stored(mem, addr, Kept(vs))
            == Stored(if v.Accepted? then Poke(mem, addr, v.word) else mem, Onward(addr, v), Kept(vs[1..]))
  {
    if v.Accepted? {
      assert ([v.word] + Kept(vs[1..]))[1..] == Kept(vs[1..]);
    }
  }

  /** One line of a session in terms of its whole transcript. */
  lemma SessionStep(judge: Judge, mem: Memory, addr: Word, lines: seq<string>, k: nat, vs: seq<Verdict>, v: Verdict)
    requires k < |lines| && !Ends(lines[k]) && k <= |vs| && Transcript(judge, addr, lines[k..]) == vs[k..]
    requires v == judge(addr, lines[k])
    ensures k < |vs| && Transcript(judge, Onward(addr, v), lines[k + 1..]) == vs[k + 1..]
    ensures Stored(mem, addr, Kept(vs[k..]))
            == Stored(if v.Accepted? then Poke(mem, addr, v.word) else mem, Onward(addr, v), Kept(vs[k + 1..]))
    ensures Rejected in vs[..k + 1] <==> Rejected in vs[..k] || v.Rejected?
  {
    assert lines[k..][1..] == lines[k + 1..] && vs[k..][1..] == vs[k + 1..];
    assert vs[k..][0] == vs[k] == v;
    assert vs[..k + 1] == vs[..k] + [v];
    StoreFirst(mem, addr, v, vs[k..]);
  }

  // ----- ds -----

  /** `dis_last_addr`, `dis_last_len` and what has been printed. */
  datatype DisCursor = DisCursor(addr: Word, len: Word, output: seq<string>)

  /** The line shown for the word at an address. */
  type Show = Word -> string

  function WordsOf(mem: Memory): Word -> Word {
    addr => Peek(mem, addr)
  }

  function DisassemblerShow(t: Table, mem: Memory): Show
    requires TableOk(t)
  {
    (addr: Word) => Disassemble(t, Peek(mem, addr), addr)
  }

  function Page(show: Show, addr: Word, n: nat): seq<string> {
    seq(n, i requires 0 <= i < n => show(Slot(addr, i)))
  }

  function Display(show: Show, c: DisCursor, args: (Word, Option<Word>), repeated: bool): DisCursor {
    var addr := if repeated then c.addr else args.0;
    var len := if repeated || args.1.None? then c.len else args.1.value;
    DisCursor(Slot(addr, len), len, c.output + Page(show, addr, if Signed(len) < 0 then 0 else len))
  }

  lemma DisplayedLines(show: Show, c: DisCursor, args: (Word, Option<Word>), repeated: bool,
                       addr: Word, len: Word, lines: seq<string>)
    requires addr == (if repeated then c.addr else args.0)
    requires len == (if repeated || args.1.None? then c.len else args.1.value)
    requires lines == Page(show, addr, if Signed(len) < 0 then 0 else len)
    ensures Display(show, c, args, repeated) == DisCursor(Slot(addr, len), len, c.output + lines)
  {
  }

  lemma ListingIsPage(t: Table, mem: Memory, addr: Word, n: nat)
    requires TableOk(t)
    ensures Listing(t, WordsOf(mem), addr, addr, n) == Page(DisassemblerShow(t, mem), addr, n)
  {
    var show, words := DisassemblerShow(t, mem), WordsOf(mem);
    forall i: nat | i < n ensures ListingLine(t, words, addr, addr, i) == show(Slot(addr, i)) {
      assert words(Slot(addr, i)) == Peek(mem, Slot(addr, i));
      assert show(Slot(addr, i)) == Disassemble(t, words(Slot(addr, i)), Slot(addr, i));
    }
    assert |Listing(t, words, addr, addr, n)| == |Page(show, addr, n)|;
  }

  /** The call to `disppc`, which takes the length as an `int`. */
  method Disassembly(t: Table, mem: Memory, addr: Word, len: Word) returns (lines: seq<string>)
    requires TableOk(t)
    ensures lines == Page(DisassemblerShow(t, mem), addr, if Signed(len) < 0 then 0 else len)
  {
    lines := DisPpc(t, WordsOf(mem), addr, 0, Signed(len));
    ListingIsPage(t, mem, addr, if Signed(len) < 0 then 0 else len);
  }

  class Console {
    var mem: Memory
    var disLastAddr: Word
    var disLastLen: Word
    var output: seq<string>

    constructor (mem: Memory)
      ensures this.mem == mem && Cursor() == DisCursor(0, 20, [])
    {
      this.mem, disLastAddr, disLastLen, output := mem, 0, 20, [];
    }

    function Cursor(): DisCursor
      reads this
    {
      DisCursor(disLastAddr, disLastLen, output)
    }

    /** One accepted or rejected line of `do_bedbug_asm`. */
    method AssembleLine(t: Table, addr: Word, line: string) returns (v: Verdict)
      requires TableOk(t)
      modifies this`mem
      ensures v == AssemblerJudge(t)(addr, line)
      ensures mem == if v.Accepted? then Poke(old(mem), addr, v.word) else old(mem)
    {
      var r := AsmPpc(t, addr, line);
      v := Rejected;
      if r.word != 0 {
        mem := Poke(mem, addr, Wrap(r.word));
        v := Accepted(Wrap(r.word));
      }
    }

    /** `do_bedbug_asm`, with the lines that are typed; `None` stands for a missing argument. */
    method DoAsm(t: Table, start: Option<Word>, lines: seq<string>) returns (rcode: int)
      requires TableOk(t)
      modifies this`mem
      ensures start.None? ==> rcode == 1 && mem == old(mem)
      ensures start.Some? ==>
                var vs := Transcript(AssemblerJudge(t), start.value, lines);
                mem == Stored(old(mem), start.value, Kept(vs)) && rcode == if Rejected in vs then 1 else 0
    {
      if start.None? {
        return 1;
      }
      rcode := 0;
      var addr: Word, k := start.value, 0;
      ghost var judge := AssemblerJudge(t);
      ghost var vs := Transcript(judge, addr, lines);
      ghost var final := Stored(mem, addr, Kept(vs));
      while k < |lines| && !Ends(lines[k])
        invariant 0 <= k <= |vs| && Transcript(judge, addr, lines[k..]) == vs[k..]
        invariant Stored(mem, addr, Kept(vs[k..])) == final
        invariant rcode == if Rejected in vs[..k] then 1 else 0
      {
        ghost var before := mem;
        var v := AssembleLine(t, addr, lines[k]);
        SessionStep(judge, before, addr, lines, k, vs, v);
        rcode := if v.Rejected? then 1 else rcode;
        addr := Onward(addr, v);
        k := k + 1;
      }
      assert vs[..k] == vs;
    }

    /** `do_bedbug_dis`: `args` are the address and the optional length of a new command; a repeated
        command goes on where the last one ended.  `None` stands for a missing argument. */
    method DoDis(t: Table, args: Option<(Word, Option<Word>)>, repeated: bool) returns (rcode: int)
      requires TableOk(t)
      modifies this`disLastAddr, this`disLastLen, this`output
      ensures mem == old(mem)
      ensures args.None? ==> rcode == 1 && Cursor() == old(Cursor())
      ensures args.Some? ==>
                rcode == 0 && Cursor() == Display(DisassemblerShow(t, old(mem)), old(Cursor()), args.value, repeated)
    {
      if args.None? {
        return 1;
      }
      ghost var c := Cursor();
      var addr: Word, len: Word := disLastAddr, disLastLen;
      if !repeated {
        addr := args.value.0;
        if args.value.1.Some? {
          len := args.value.1.value;
        }
      }
      var lines := Disassembly(t, mem, addr, len);
      DisplayedLines(DisassemblerShow(t, mem), c, args.value, repeated, addr, len, lines);
      output := output + lines;
      disLastAddr, disLastLen := Slot(addr, len), len;
      return 0;
    }
  }

  // ----- an assembly session is contiguous -----

  lemma SlotShift(start: Word, k: nat)
    ensures Slot(Following(start), k) == Slot(start, k + 1)
  {
    WrapAdd(start + 4, 4 * k);
  }

  /** An accepted word is the whole result of the assembler, and only such lines are accepted. */
  lemma JudgeExact(t: Table, addr: Word, line: string)
    requires TableOk(t)
    ensures match AssemblerJudge(t)(addr, line)
            case Accepted(word) => word != 0 && Assemble(t, addr, line) == AsmResult(word, NoError)
            case Rejected => !Accepts(t, addr, line)
  {
    if Accepts(t, addr, line) {
      AcceptedLine(t, addr, line);
    } else {
      RejectedLine(t, addr, line);
    }
  }

  /** Every line is judged at the address that its own word goes to: the start plus four bytes for
      each line accepted before it. */
  lemma {:induction false} LineVerdict(judge: Judge, start: Word, lines: seq<string>, i: nat)
    requires i < |Transcript(judge, start, lines)|
    ensures var vs := Transcript(judge, start, lines);
            vs[i] == judge(Slot(start, |Kept(vs[..i])|), lines[i])
    decreases |lines|
  {
    if i > 0 {
      var v := judge(start, lines[0]);
      LineVerdict(judge, Onward(start, v), lines[1..], i - 1);
      KeptBefore(start, v, Transcript(judge, Onward(start, v), lines[1..]), i);
    }
  }

  lemma KeptBefore(start: Word, v: Verdict, rest: seq<Verdict>, i: nat)
    requires 0 < i <= |rest|
    ensures var vs := [v] + rest;
            vs[i] == rest[i - 1] && Slot(start, |Kept(vs[..i])|) == Slot(Onward(start, v), |Kept(rest[..i - 1])|)
  {
    var vs := [v] + rest;
    assert vs[..i][1..] == rest[..i - 1];
    SlotShift(start, |Kept(rest[..i - 1])|);
  }

  /** The session ends at the first line that is empty or a single period. */
  lemma {:induction false} SessionEnd(judge: Judge, start: Word, lines: seq<string>, i: nat)
    requires i < |lines| && i <= |Transcript(judge, start, lines)|
    ensures lines[i] == [] || lines[i] == "." <==> i == |Transcript(judge, start, lines)|
    decreases |lines|
  {
    if i > 0 {
      SessionEnd(judge, Onward(start, judge(start, lines[0])), lines[1..], i - 1);
    }
  }

  /** Memory after the session, byte by byte: up to 2^30 accepted words fill the bytes from the start on,
      in order, and no other byte changes. */
  lemma {:induction false} StoredBytes(mem: Memory, start: Word, ws: seq<Word>, x: Word)
    requires |ws| <= 0x4000_0000
    ensures var d := Behind(x, start);
            Stored(mem, start, ws)(x) == if d < 4 * |ws| then ByteOf(ws[d / 4], d % 4) else mem(x)
    decreases |ws|
  {
    if ws != [] {
      var d := Behind(x, start);
      StoredBytes(Poke(mem, start, ws[0]), Following(start), ws[1..], x);
      BehindNext(x, start);
      if 4 <= d < 4 * |ws| {
        assert (d - 4) / 4 == d / 4 - 1 && (d - 4) % 4 == d % 4;
      }
    }
  }

  lemma BehindNext(x: Word, start: Word)
    ensures var d := Behind(x, start);
            Behind(x, Following(start)) == if d < 4 then d + 0xFFFF_FFFC else d - 4
  {
  }

  /** So the accepted words are read back from consecutive slots. */
  lemma StoredWords(mem: Memory, start: Word, ws: seq<Word>, k: nat)
    requires k < |ws| <= 0x4000_0000
    ensures Peek(Stored(mem, start, ws), Slot(start, k)) == ws[k]
  {
    var after := Stored(mem, start, ws);
    forall i: nat | i < 4 ensures after(Wrap(Slot(start, k) + i)) == ByteOf(ws[k], i) {
      StoredByte(mem, start, ws, k, i);
    }
    PeekBytes(after, Slot(start, k), ws[k]);
  }

  lemma StoredByte(mem: Memory, start: Word, ws: seq<Word>, k: nat, i: nat)
    requires k < |ws| <= 0x4000_0000 && i < 4
    ensures Stored(mem, start, ws)(Wrap(Slot(start, k) + i)) == ByteOf(ws[k], i)
  {
    SlotByte(start, k, i);
    StoredBytes(mem, start, ws, Wrap(Slot(start, k) + i));
    assert (4 * k + i) / 4 == k && (4 * k + i) % 4 == i;
  }

  lemma SlotByte(start: Word, k: nat, i: nat)
    requires k < 0x4000_0000 && i < 4
    ensures Behind(Wrap(Slot(start, k) + i), start) == 4 * k + i
  {
    var d: Word := 4 * k + i;
    assert Wrap(Slot(start, k) + i) == Wrap(start + d) by { WrapAdd(start + 4 * k, i); }
    assert Wrap(Wrap(start + d) - start) == Wrap(d) by { WrapAdd(start + d, 0 - start as int); }
  }

  lemma BytesApart(w: Word, a: Byte, b: Byte, c: Byte, d: Byte)
    requires w == a * 0x100_0000 + b * 0x1_0000 + c * 0x100 + d
    ensures [ByteOf(w, 0), ByteOf(w, 1), ByteOf(w, 2), ByteOf(w, 3)] == [a, b, c, d]
  {
    assert w / 0x100_0000 == a;
    assert w / 0x1_0000 == a * 0x100 + b;
    assert w / 0x100 == (a * 0x100 + b) * 0x100 + c;
  }

  /** A stored word has its most significant byte first, at the address itself. */
  lemma StoredBigEndian(mem: Memory, addr: Word, w: Word, bytes: seq<Byte>, i: nat)
    requires |bytes| == 4 && i < 4
    requires w == bytes[0] as nat * 0x100_0000 + bytes[1] as nat * 0x1_0000 + bytes[2] as nat * 0x100 + bytes[3]
    ensures Poke(mem, addr, w)(Wrap(addr + i)) == bytes[i]
  {
    BytesApart(w, bytes[0], bytes[1], bytes[2], bytes[3]);
    SlotByte(addr, 0, i);
    assert bytes == [bytes[0], bytes[1], bytes[2], bytes[3]];
  }

  /** `ds` over the slots of an assembly session lists the accepted words, each at its own address. */
  lemma AssembledPage(t: Table, mem: Memory, start: Word, ws: seq<Word>, k: nat)
    requires TableOk(t) && k < |ws| <= 0x4000_0000
    ensures Page(DisassemblerShow(t, Stored(mem, start, ws)), start, |ws|)[k]
         == Disassemble(t, ws[k], Slot(start, k))
  {
    StoredWords(mem, start, ws, k);
  }

  /** Without a length the remembered one is used, and it stays the remembered one. */
  lemma OmittedLength(show: Show, c: DisCursor, addr: Word)
    requires c.len < 0x8000_0000
    ensures Display(show, c, (addr, None), false)
         == DisCursor(Slot(addr, c.len), c.len, c.output + Page(show, addr, c.len))
  {
  }

  // ----- repeated disassembly tiles memory -----

  function Repeats(show: Show, c: DisCursor, args: (Word, Option<Word>), k: nat): DisCursor
    decreases k
  {
    if k == 0 then c else Display(show, Repeats(show, c, args, k - 1), args, true)
  }

  lemma OneMore(k: nat, n: nat)
    ensures (k + 1) * n == k * n + n >= n
  {
  }

  lemma SlotSum(a: Word, m: nat, i: nat)
    ensures Slot(Slot(a, m), i) == Slot(a, m + i)
  {
    WrapAdd(a + 4 * m, 4 * i);
  }

  lemma PageSplit(show: Show, a: Word, m: nat, n: nat)
    ensures Page(show, a, m + n) == Page(show, a, m) + Page(show, Slot(a, m), n)
  {
    forall i: nat | i < n ensures Slot(Slot(a, m), i) == Slot(a, m + i) {
      SlotSum(a, m, i);
    }
  }

  /** A repetition takes up the listing where it stopped. */
  lemma TileStep(show: Show, out: seq<string>, addr: Word, m: nat, n: Word, args: (Word, Option<Word>))
    requires n < 0x8000_0000
    ensures Display(show, DisCursor(Slot(addr, m), n, out + Page(show, addr, m)), args, true)
            == DisCursor(Slot(addr, m + n), n, out + Page(show, addr, m + n))
  {
    SlotSum(addr, m, n);
    PageSplit(show, addr, m, n);
    assert (out + Page(show, addr, m)) + Page(show, Slot(addr, m), n)
        == out + (Page(show, addr, m) + Page(show, Slot(addr, m), n));
  }

  /** A `ds` of `n` instructions and `k` repetitions print the page of `(k + 1) * n` instructions from
      the same address, modulo 2^32. */
  lemma {:induction false} RepeatsTile(show: Show, c: DisCursor, addr: Word, n: Word, k: nat, m: nat)
    requires n < 0x8000_0000 && m == (k + 1) * n
    ensures var args := (addr, Some(n));
            Repeats(show, Display(show, c, args, false), args, k)
            == DisCursor(Slot(addr, m), n, c.output + Page(show, addr, m))
    decreases k
  {
    if k > 0 {
      OneMore(k, n);
      RepeatsTile(show, c, addr, n, k - 1, m - n);
      TileStep(show, c.output, addr, m - n, n, (addr, Some(n)));
    }
  }

  /** A length of 2^31 or more is negative as an `int`: nothing is printed, then or on repetition,
      and yet the last address moves on. */
  lemma {:induction false} HugeLength(show: Show, c: DisCursor, addr: Word, n: Word, k: nat, m: nat)
    requires n >= 0x8000_0000 && m == (k + 1) * n
    ensures var args := (addr, Some(n));
            Repeats(show, Display(show, c, args, false), args, k) == DisCursor(Slot(addr, m), n, c.output)
    decreases k
  {
    if k > 0 {
      OneMore(k, n);
      HugeLength(show, c, addr, n, k - 1, m - n);
      SlotSum(addr, m - n, n);
    }
  }
}
