/**
  `ldr_load` of common/cmd_bootldr.c: loading a Blackfin LDR boot stream that the older parts (BF53x and
  BF561) leave to the boot loader.

  A stream is a list of blocks, each with a little-endian header of ten bytes.
 */
module Ldr {
  import opened Wrappers
  import Words

  newtype byte = x: int | 0 <= x < 256

  const HEADER: nat := 10

  /** A block: its header fields and the bytes that follow them. */
  datatype Block = Block(addr: nat, count: nat, flags: nat, payload: seq<byte>)

  predicate ZeroFill(flags: nat) { flags % 2 == 1 }
  predicate ResVect(flags: nat) { flags / 0x0002 % 2 == 1 }
  predicate Init(flags: nat) { flags / 0x0008 % 2 == 1 }
  predicate Ignore(flags: nat) { flags / 0x0010 % 2 == 1 }
  predicate Final(flags: nat) { flags / 0x8000 % 2 == 1 }

  /** How many bytes follow the header. */
  function PayloadSize(count: nat, flags: nat): nat {
    if ZeroFill(flags) then 0 else count
  }

  predicate BlockOk(b: Block) {
    && b.addr < 0x1_0000_0000 && b.count < 0x1_0000_0000 && b.flags < 0x1_0000
    && |b.payload| == PayloadSize(b.count, b.flags)
  }

  predicate AllOk(bs: seq<Block>) {
    forall i :: 0 <= i < |bs| ==> BlockOk(bs[i])
  }

  /** A list the loader runs through: it is not empty and its last block, and no other, is FINAL. */
  predicate BlocksOk(bs: seq<Block>) {
    && bs != []
    && AllOk(bs)
    && (forall i :: 0 <= i < |bs| ==> (Final(bs[i].flags) <==> i == |bs| - 1))
  }

  // ----- the stream -----

  function Bytes16(n: nat): (s: seq<byte>)
    requires n < 0x1_0000
    ensures |s| == 2
  {
    [(n % 256) as byte, (n / 256) as byte]
  }

  function Bytes32(n: nat): (s: seq<byte>)
    requires n < 0x1_0000_0000
    ensures |s| == 4
  {
    Bytes16(n % 0x1_0000) + Bytes16(n / 0x1_0000)
  }

  /** The values `memmove` puts in a `uint16_t` and a `uint32_t`. */
  function Read16(a: byte, b: byte): (n: nat)
    ensures n < 0x1_0000
  {
    a as nat + 256 * b as nat
  }

  function Read32(a: byte, b: byte, c: byte, d: byte): (n: nat)
    ensures n < 0x1_0000_0000
  {
    Read16(a, b) + 0x1_0000 * Read16(c, d)
  }

  function Header(b: Block): (h: seq<byte>)
    requires BlockOk(b)
    ensures |h| == HEADER
  {
    Bytes32(b.addr) + Bytes32(b.count) + Bytes16(b.flags)
  }

  function Size(b: Block): nat {
    HEADER + |b.payload|
  }

  function Stream(bs: seq<Block>): seq<byte>
    requires AllOk(bs)
  {
    if bs == [] then [] else Header(bs[0]) + bs[0].payload + Stream(bs[1..])
  }

  /** The header at the front of `s`, and as many bytes after it as it asks for. */
  function ParseBlock(s: seq<byte>): (r: Option<Block>)
    ensures r.Some? ==> BlockOk(r.value) && Size(r.value) <= |s|
  {
    if |s| < HEADER then None
    else
      var addr, count := Read32(s[0], s[1], s[2], s[3]), Read32(s[4], s[5], s[6], s[7]);
      var flags := Read16(s[8], s[9]);
      var size := PayloadSize(count, flags);
      if |s| < HEADER + size then None
      else Some(Block(addr, count, flags, s[HEADER..HEADER + size]))
  }

  /** The blocks of a stream, up to the first FINAL one. */
  function Parse(s: seq<byte>): (r: Option<seq<Block>>)
    decreases |s|
  {
    var front := ParseBlock(s);
    if front.None? then None
    else if Final(front.value.flags) then Some([front.value])
    else
      var rest := Parse(s[Size(front.value)..]);
      if rest.None? then None else Some([front.value] + rest.value)
  }

  lemma Read16Back(n: nat)
    requires n < 0x1_0000
    ensures var s := Bytes16(n); Read16(s[0], s[1]) == n
  {
  }

  lemma Read32Back(n: nat)
    requires n < 0x1_0000_0000
    ensures var s := Bytes32(n); Read32(s[0], s[1], s[2], s[3]) == n
  {
    Read16Back(n % 0x1_0000);
    Read16Back(n / 0x1_0000);
  }

  lemma Bytes16Back(a: byte, b: byte)
    ensures Bytes16(Read16(a, b)) == [a, b]
  {
  }

  lemma Bytes32Back(a: byte, b: byte, c: byte, d: byte)
    ensures Bytes32(Read32(a, b, c, d)) == [a, b, c, d]
  {
    BothBack(Read16(a, b), Read16(c, d), a, b, c, d, Read32(a, b, c, d));
  }

  lemma BothBack(lo: nat, hi: nat, a: byte, b: byte, c: byte, d: byte, n: nat)
    requires lo == a as nat + 256 * b as nat && hi == c as nat + 256 * d as nat && n == lo + 0x1_0000 * hi
    ensures n < 0x1_0000_0000 && Bytes32(n) == [a, b, c, d]
  {
    assert Bytes16(lo) == [a, b] by { Bytes16Back(a, b); }
    assert Bytes16(hi) == [c, d] by { Bytes16Back(c, d); }
    Halves(lo, hi);
  }

  lemma Halves(lo: nat, hi: nat)
    requires lo < 0x1_0000 && hi < 0x1_0000
    ensures lo + 0x1_0000 * hi < 0x1_0000_0000
    ensures Bytes32(lo + 0x1_0000 * hi) == Bytes16(lo) + Bytes16(hi)
  {
    var n := lo + 0x1_0000 * hi;
    assert n / 0x1_0000 == hi;
    assert n % 0x1_0000 == lo;
  }

  /** A header reads back as the fields it was made of. */
  lemma HeaderReads(b: Block)
    requires BlockOk(b)
    ensures var h := Header(b);
            && Read32(h[0], h[1], h[2], h[3]) == b.addr
            && Read32(h[4], h[5], h[6], h[7]) == b.count
            && Read16(h[8], h[9]) == b.flags
  {
    Read32Back(b.addr);
    Read32Back(b.count);
    Read16Back(b.flags);
  }

  lemma ParseBlockBack(b: Block, r: seq<byte>)
    requires BlockOk(b)
    ensures ParseBlock(Header(b) + b.payload + r) == Some(b)
  {
    var s := Header(b) + b.payload + r;
    HeaderReads(b);
    assert s[HEADER..HEADER + |b.payload|] == b.payload;
  }

  lemma ParsedBytes(s: seq<byte>)
    requires ParseBlock(s).Some?
    ensures var b := ParseBlock(s).value; s[..Size(b)] == Header(b) + b.payload
  {
    Bytes32Back(s[0], s[1], s[2], s[3]);
    Bytes32Back(s[4], s[5], s[6], s[7]);
    Bytes16Back(s[8], s[9]);
    var b := ParseBlock(s).value;
    assert Header(b) == s[..HEADER];
  }

  /** Parsing past one block. */
  lemma ParseOne(b: Block, r: seq<byte>)
    requires BlockOk(b)
    ensures Final(b.flags) ==> Parse(Header(b) + b.payload + r) == Some([b])
    ensures !Final(b.flags) && Parse(r).Some? ==> Parse(Header(b) + b.payload + r) == Some([b] + Parse(r).value)
  {
    var s := Header(b) + b.payload + r;
    ParseBlockBack(b, r);
    assert s[Size(b)..] == r;
  }

  lemma BlocksOkCons(b: Block, rest: seq<Block>)
    requires BlockOk(b)
    ensures Final(b.flags) ==> BlocksOk([b]) && Stream([b]) == Header(b) + b.payload
    ensures !Final(b.flags) && BlocksOk(rest) ==>
              BlocksOk([b] + rest) && Stream([b] + rest) == Header(b) + b.payload + Stream(rest)
  {
    assert ([b] + rest)[1..] == rest;
    assert [b][1..] == [];
  }

  lemma BlocksOkFront(bs: seq<Block>)
    requires BlocksOk(bs)
    ensures BlockOk(bs[0]) && bs == [bs[0]] + bs[1..]
    ensures if Final(bs[0].flags) then bs == [bs[0]] else BlocksOk(bs[1..])
  {
  }

  /** A serialized block list parses to itself, whatever bytes come after it. */
  lemma {:induction false} ParseStream(bs: seq<Block>, tail: seq<byte>)
    requires BlocksOk(bs)
    ensures Parse(Stream(bs) + tail) == Some(bs)
    decreases |bs|
  {
    BlocksOkFront(bs);
    if !Final(bs[0].flags) {
      ParseStream(bs[1..], tail);
    }
    ParseCons(bs[0], bs[1..], tail);
  }

  lemma ParseCons(b: Block, rest: seq<Block>, tail: seq<byte>)
    requires BlockOk(b)
    requires if Final(b.flags) then rest == [] else BlocksOk(rest) && Parse(Stream(rest) + tail) == Some(rest)
    ensures BlocksOk([b] + rest) && Parse(Stream([b] + rest) + tail) == Some([b] + rest)
  {
    BlocksOkCons(b, rest);
    if Final(b.flags) {
      assert [b] + rest == [b];
      ParseOne(b, tail);
    } else {
      StreamCons(b, rest, tail);
      ParseOne(b, Stream(rest) + tail);
    }
  }

  lemma StreamCons(b: Block, rest: seq<Block>, tail: seq<byte>)
    requires BlockOk(b) && !Final(b.flags) && BlocksOk(rest)
    ensures BlocksOk([b] + rest)
    ensures Stream([b] + rest) + tail == Header(b) + b.payload + (Stream(rest) + tail)
  {
    BlocksOkCons(b, rest);
  }

  lemma ParseSplit(s: seq<byte>)
    requires Parse(s).Some?
    ensures ParseBlock(s).Some?
    ensures var b := ParseBlock(s).value; var r := s[Size(b)..];
            && s == Header(b) + b.payload + r
            && (Final(b.flags) ==> Parse(s).value == [b])
            && (!Final(b.flags) ==> Parse(r).Some? && Parse(s).value == [b] + Parse(r).value)
  {
    ParsedBytes(s);
    var b := ParseBlock(s).value;
    assert s == s[..Size(b)] + s[Size(b)..];
  }

  /** Every stream that ends is the serialization of one block list, followed by bytes never looked at. */
  lemma {:induction false} StreamParse(s: seq<byte>)
    requires Parse(s).Some?
    ensures BlocksOk(Parse(s).value) && Stream(Parse(s).value) <= s
    decreases |s|
  {
    ParseSplit(s);
    var b := ParseBlock(s).value;
    var r := s[Size(b)..];
    if Final(b.flags) {
      BlocksOkCons(b, []);
    } else {
      StreamParse(r);
      BlocksOkCons(b, Parse(r).value);
      PrefixCons(Header(b) + b.payload, Stream(Parse(r).value), r);
    }
  }

  lemma PrefixCons(a: seq<byte>, b: seq<byte>, c: seq<byte>)
    requires b <= c
    ensures a + b <= a + c
  {
  }

  // ----- the layout in numbers -----

  /** The flags are the bits 0x0001, 0x0002, 0x0008, 0x0010 and 0x8000 of the flag word. */
  lemma FlagMasks(flags: nat)
    ensures ZeroFill(flags) <==> Words.And(flags, 0x0001) != 0
    ensures ResVect(flags) <==> Words.And(flags, 0x0002) != 0
    ensures Init(flags) <==> Words.And(flags, 0x0008) != 0
    ensures Ignore(flags) <==> Words.And(flags, 0x0010) != 0
    ensures Final(flags) <==> Words.And(flags, 0x8000) != 0
  {
    OneFlag(flags, 0, 0x0001);
    OneFlag(flags, 1, 0x0002);
    OneFlag(flags, 3, 0x0008);
    OneFlag(flags, 4, 0x0010);
    Words.ShlProduct(5, 10);
    OneFlag(flags, 15, 0x8000);
  }

  lemma OneFlag(flags: nat, n: nat, mask: nat)
    requires mask == Words.Shl(1, n)
    ensures mask > 0 && (Words.And(flags, mask) != 0 <==> flags / mask % 2 == 1)
  {
    Words.AndOneBit(flags, n);
  }

  /** The number that four bytes hold, the least significant first. */
  function LittleEndian(a: byte, b: byte, c: byte, d: byte): nat {
    a as nat + 0x100 * b as nat + 0x1_0000 * c as nat + 0x100_0000 * d as nat
  }

  /** A block has its address in bytes 0 to 3, the count in 4 to 7 and the flags in 8 and 9, all
      little-endian; `count` bytes follow it unless the ZEROFILL bit is set, under IGNORE as well. */
  lemma BlockLayout(b: Block)
    requires BlockOk(b)
    ensures var s := Stream([b]);
            && |s| == 10 + (if Words.And(b.flags, 0x0001) != 0 then 0 else b.count)
            && LittleEndian(s[0], s[1], s[2], s[3]) == b.addr
            && LittleEndian(s[4], s[5], s[6], s[7]) == b.count
            && LittleEndian(s[8], s[9], 0, 0) == b.flags
            && s[10..] == b.payload
  {
    assert [b][1..] == [];
    HeaderReads(b);
    FlagMasks(b.flags);
    assert Stream([b]) == Header(b) + b.payload;
  }

  /** The stream of two lists, one after the other, and the calls it makes. */
  lemma {:induction false} StreamAppend(a: seq<Block>, b: seq<Block>)
    requires AllOk(a) && AllOk(b)
    ensures AllOk(a + b) && Stream(a + b) == Stream(a) + Stream(b)
    ensures InitCalls(a + b) == InitCalls(a) + InitCalls(b)
    decreases |a|
  {
    if a == [] {
      assert a + b == b;
    } else {
      StreamAppend(a[1..], b);
      AppendFront(a[0], a[1..], b);
      assert [a[0]] + a[1..] == a;
    }
  }

  lemma AppendFront(x: Block, a: seq<Block>, b: seq<Block>)
    requires BlockOk(x) && AllOk(a) && AllOk(b) && AllOk(a + b) && Stream(a + b) == Stream(a) + Stream(b)
    requires InitCalls(a + b) == InitCalls(a) + InitCalls(b)
    ensures AllOk([x] + a) && AllOk(([x] + a) + b)
    ensures Stream(([x] + a) + b) == Stream([x] + a) + Stream(b)
    ensures InitCalls(([x] + a) + b) == InitCalls([x] + a) + InitCalls(b)
  {
    var bytes, calls := Header(x) + x.payload, InitCall(x.addr, x.flags);
    assert AllOk([x] + a) && Stream([x] + a) == bytes + Stream(a) && InitCalls([x] + a) == calls + InitCalls(a) by {
      StreamFront(x, a);
    }
    var all := ([x] + a) + b;
    assert AllOk(all) && Stream(all) == bytes + (Stream(a) + Stream(b))
        && InitCalls(all) == calls + (InitCalls(a) + InitCalls(b)) by {
      Regroup([x], a, b);
      StreamFront(x, a + b);
    }
    Regroup(bytes, Stream(a), Stream(b));
    Regroup(calls, InitCalls(a), InitCalls(b));
  }

  lemma Regroup<T>(a: seq<T>, b: seq<T>, c: seq<T>)
    ensures a + (b + c) == (a + b) + c
  {
  }

  lemma StreamFront(b: Block, rest: seq<Block>)
    requires BlockOk(b) && AllOk(rest)
    ensures AllOk([b] + rest) && Stream([b] + rest) == Header(b) + b.payload + Stream(rest)
    ensures InitCalls([b] + rest) == InitCall(b.addr, b.flags) + InitCalls(rest)
  {
    assert ([b] + rest)[1..] == rest;
  }

  // ----- what a block list means -----

  predicate Covers(b: Block, x: nat) {
    !Ignore(b.flags) && b.addr <= x < b.addr + b.count
  }

  /** The byte a block puts at an address it covers. */
  function Value(b: Block, x: nat): byte
    requires BlockOk(b) && Covers(b, x)
  {
    if ZeroFill(b.flags) then 0 else b.payload[x - b.addr]
  }

  /** `v` is what the blocks leave at `x` where `was` stood before: the value of the last block that covers
      `x`, and `was` if none does. */
  predicate Leaves(bs: seq<Block>, x: nat, was: byte, v: byte)
    requires AllOk(bs)
  {
    && (forall i :: 0 <= i < |bs| && Covers(bs[i], x) && (forall j :: i < j < |bs| ==> !Covers(bs[j], x)) ==>
          v == Value(bs[i], x))
    && ((forall i :: 0 <= i < |bs| ==> !Covers(bs[i], x)) ==> v == was)
  }

  /** That fixes the byte. */
  lemma {:induction false} LeavesUnique(bs: seq<Block>, x: nat, was: byte, v: byte, w: byte)
    requires AllOk(bs) && Leaves(bs, x, was, v) && Leaves(bs, x, was, w)
    ensures v == w
  {
    if i :| 0 <= i < |bs| && Covers(bs[i], x) {
      var last := LastCover(bs, x, i);
      assert Covers(bs[last], x);
    }
  }

  /** The last block that covers `x`, searched from one that does. */
  function LastCover(bs: seq<Block>, x: nat, i: nat): (k: nat)
    requires i < |bs| && Covers(bs[i], x)
    ensures i <= k < |bs| && Covers(bs[k], x) && forall j :: k < j < |bs| ==> !Covers(bs[j], x)
    decreases |bs|
  {
    var n: nat := |bs| - 1;
    if Covers(bs[n], x) then n else LastCover(bs[..n], x, i)
  }

  /** All of memory, before and after. */
  predicate Loaded(bs: seq<Block>, m: seq<byte>, n: seq<byte>) {
    AllOk(bs) && |m| == |n| && forall x: nat :: x < |m| ==> Leaves(bs, x, m[x], n[x])
  }

  /** The entry points called, in order. */
  function InitCalls(bs: seq<Block>): seq<nat> {
    if bs == [] then [] else InitCall(bs[0].addr, bs[0].flags) + InitCalls(bs[1..])
  }

  function InitCall(addr: nat, flags: nat): seq<nat> {
    if !Ignore(flags) && Init(flags) then [addr] else []
  }

  /** Blocks `bs` stand from `pos` to `end`; none writes outside memory or over the part of the stream
      that is still to be read when it is loaded: its own payload and the blocks after it. */
  predicate Loadable(bs: seq<Block>, pos: nat, end: nat, size: nat) {
    bs == []
    || (&& BlockLoadable(bs[0], pos, end, size)
        && Loadable(bs[1..], pos + Size(bs[0]), end, size))
  }

  predicate BlockLoadable(b: Block, pos: nat, end: nat, size: nat) {
    Ignore(b.flags) || b.count == 0
    || (b.addr + b.count <= size && (b.addr + b.count <= pos + HEADER || end <= b.addr))
  }

  /** Destinations clear of the whole image are one case of it. */
  lemma {:induction false} DisjointIsLoadable(bs: seq<Block>, base: nat, pos: nat, end: nat, size: nat)
    requires base <= pos
    requires forall i :: 0 <= i < |bs| && !Ignore(bs[i].flags) ==>
               && bs[i].addr + bs[i].count <= size
               && (bs[i].addr + bs[i].count <= base || end <= bs[i].addr)
    ensures Loadable(bs, pos, end, size)
    decreases |bs|
  {
    if bs != [] {
      DisjointIsLoadable(bs[1..], base, pos + Size(bs[0]), end, size);
    }
  }

  // ----- the loader -----

  /** The fields of a block header. */
  datatype Fields = Fields(addr: nat, count: nat, flags: nat)

  function FieldsAt(m: seq<byte>, p: nat): Fields
    requires p + HEADER <= |m|
  {
    Fields(Read32(m[p], m[p + 1], m[p + 2], m[p + 3]), Read32(m[p + 4], m[p + 5], m[p + 6], m[p + 7]),
           Read16(m[p + 8], m[p + 9]))
  }

  /** Memory after `memset(addr, 0, count)`. */
  function Filled(m: seq<byte>, addr: nat, count: nat): (r: seq<byte>)
    ensures |r| == |m|
  {
    seq(|m|, x requires 0 <= x < |m| => if addr <= x < addr + count then 0 else m[x])
  }

  /** Memory after `memcpy(addr, from, count)`. */
  function Copied(m: seq<byte>, addr: nat, from: nat, count: nat): (r: seq<byte>)
    requires from + count <= |m|
    ensures |r| == |m|
  {
    seq(|m|, x requires 0 <= x < |m| => if addr <= x < addr + count then m[from + (x - addr)] else m[x])
  }

  /** What C asks of `memset` and `memcpy`: the areas lie in memory, and those of a copy do not overlap. */
  predicate Defined(m: seq<byte>, p: nat, h: Fields) {
    Ignore(h.flags) || h.count == 0
    || (&& h.addr + h.count <= |m|
        && (!ZeroFill(h.flags) ==> p + h.count <= |m| && (h.addr + h.count <= p || p + h.count <= h.addr)))
  }

  /** Memory after one block whose payload stands at `p`. */
  function After(m: seq<byte>, p: nat, h: Fields): (r: seq<byte>)
    requires Defined(m, p, h)
    ensures |r| == |m|
  {
    if Ignore(h.flags) || h.count == 0 then m
    else if ZeroFill(h.flags) then Filled(m, h.addr, h.count)
    else Copied(m, h.addr, p, h.count)
  }

  /** What the INIT routine at an address does to memory. */
  type Routines = (nat, seq<byte>) -> seq<byte>

  /** Memory after the call, if there is one; memory keeps its size. */
  function Called(init: Routines, called: seq<nat>, m: seq<byte>): (r: seq<byte>)
    ensures |r| == |m|
  {
    if called == [] || |init(called[0], m)| != |m| then m else init(called[0], m)
  }

  /** One turn of the loop: memory after it, where the next header stands, whether the block was FINAL,
      and the INIT entry point called. */
  datatype Turn = Turn(mem: seq<byte>, next: nat, final: bool, called: seq<nat>)

  function TurnAt(init: Routines, m: seq<byte>, base: nat): Option<Turn> {
    if base + HEADER > |m| || !Defined(m, base + HEADER, FieldsAt(m, base)) then None
    else Some(TurnWith(init, m, base + HEADER, FieldsAt(m, base)))
  }

  /** The turn on a block with header fields `h` and its payload at `p`. */
  function TurnWith(init: Routines, m: seq<byte>, p: nat, h: Fields): Turn
    requires Defined(m, p, h)
  {
    var called := InitCall(h.addr, h.flags);
    Turn(Called(init, called, After(m, p, h)), p + PayloadSize(h.count, h.flags), Final(h.flags), called)
  }

  /** A turn, as a function of memory and the place of the header. */
  type Stepper = (seq<byte>, nat) -> Option<Turn>

  function Loader(init: Routines): Stepper {
    (m: seq<byte>, base: nat) => TurnAt(init, m, base)
  }

  ghost predicate Loads(step: Stepper, init: Routines) {
    forall m: seq<byte>, base: nat {:trigger TurnAt(init, m, base)} :: step(m, base) == TurnAt(init, m, base)
  }

  datatype Done = Done(mem: seq<byte>, end: nat, calls: seq<nat>)

  /** The loader on any memory, started at `base`: each header is read from memory as the blocks before it
      left it.  `None` when the run is not defined or does not end within `n` blocks. */
  function Run(step: Stepper, m: seq<byte>, base: nat, n: nat): Option<Done>
    decreases n
  {
    if n == 0 then None
    else match step(m, base)
      case None => None
      case Some(t) =>
        if t.final then Some(Done(t.mem, t.next, t.called))
        else Onward(t.called, Run(step, t.mem, t.next, n - 1))
  }

  /** The rest of a run, after calls already made. */
  function Onward(calls: seq<nat>, rest: Option<Done>): Option<Done> {
    if rest.None? then None else Some(rest.value.(calls := calls + rest.value.calls))
  }

  /** The bound does not matter once the run ends within it. */
  lemma {:induction false} RunBound(step: Stepper, m: seq<byte>, base: nat, n: nat, k: nat)
    requires Run(step, m, base, n).Some? && n <= k
    ensures Run(step, m, base, k) == Run(step, m, base, n)
    decreases n
  {
    var t := step(m, base).value;
    if !t.final {
      RunBound(step, t.mem, t.next, n - 1, k - 1);
    }
  }

  /** `memset(addr, 0, count)`. */
  method MemSet(mem: array<byte>, addr: nat, count: nat)
    requires addr + count <= mem.Length
    modifies mem
    ensures mem[..] == Filled(old(mem[..]), addr, count)
  {
    for k := 0 to count
      invariant forall x :: 0 <= x < mem.Length ==>
                  mem[x] == if addr <= x < addr + k then 0 else old(mem[x])
    {
      mem[addr + k] := 0;
    }
  }

  /** `memcpy(addr, from, count)`, on areas that do not overlap. */
  method MemCpy(mem: array<byte>, addr: nat, from: nat, count: nat)
    requires addr + count <= mem.Length && from + count <= mem.Length
    requires addr + count <= from || from + count <= addr
    modifies mem
    ensures mem[..] == Copied(old(mem[..]), addr, from, count)
  {
    for k := 0 to count
      invariant forall x :: 0 <= x < mem.Length ==>
                  mem[x] == if addr <= x < addr + k then old(mem[from + (x - addr)]) else old(mem[x])
    {
      mem[addr + k] := mem[from + k];
    }
  }

  /** Loading the contents of one block whose payload stands at `p`. */
  method LoadBlock(mem: array<byte>, p: nat, h: Fields)
    requires Defined(mem[..], p, h)
    modifies mem
    ensures mem[..] == After(old(mem[..]), p, h)
  {
    if !Ignore(h.flags) && h.count > 0 {
      if ZeroFill(h.flags) {
        MemSet(mem, h.addr, h.count);
      } else {
        MemCpy(mem, h.addr, p, h.count);
      }
    }
  }

  /** Reading one block header. */
  method ReadHeader(mem: array<byte>, p: nat) returns (h: Fields)
    requires p + HEADER <= mem.Length
    ensures h == FieldsAt(mem[..], p)
  {
    var addr := Read32(mem[p], mem[p + 1], mem[p + 2], mem[p + 3]);
    var count := Read32(mem[p + 4], mem[p + 5], mem[p + 6], mem[p + 7]);
    var flags := Read16(mem[p + 8], mem[p + 9]);
    h := Fields(addr, count, flags);
  }

  /** `ldr_load`, on every memory for which the run is defined and ends, after `n` blocks at most, and with
      INIT routines that do what `init` says.  `evt1` is the value written to EVT1, `calls` the INIT entry
      points called, and `end` is where the loader stopped reading.  A BF561 image has a global header of
      four bytes, whatever they are, before its stream; and a stream leaves what its block list says. */
  method LdrLoad(mem: array<byte>, image: nat, bf561: bool, init: Routines, ghost n: nat)
    returns (end: nat, evt1: nat, calls: seq<nat>)
    requires Run(Loader(init), mem[..], image + (if bf561 then 4 else 0), n).Some?
    modifies mem
    ensures Run(Loader(init), old(mem[..]), image + (if bf561 then 4 else 0), n) == Some(Done(mem[..], end, calls))
    ensures evt1 == EntryVector(old(mem[..]), image + (if bf561 then 4 else 0))
    ensures forall bs: seq<Block> :: Delivers(init, old(mem[..]), image + (if bf561 then 4 else 0), bs) ==>
              && Loaded(bs, old(mem[..]), mem[..]) && calls == InitCalls(bs)
              && end == image + (if bf561 then 4 else 0) + |Stream(bs)|
              && evt1 == if ResVect(bs[0].flags) then 0xFFA0_0000 else 0xFFA0_8000
  {
    end := image;
    if bf561 {
      end := end + 4;
    }
    ghost var start, before := end, mem[..];
    LoaderLoads(init);
    evt1 := FirstVector(mem, end, init, n);
    end, calls := LoadBlocks(mem, end, init, Loader(init), n);
    ghost var after := Done(mem[..], end, calls);
    forall bs: seq<Block> | Delivers(init, before, start, bs) ensures Delivered(bs, before, start, after, evt1) {
      RunDelivers(init, before, start, bs, n);
    }
  }

  /** The value for EVT1: where the first header's RESVECT flag says. */
  function EntryVector(m: seq<byte>, start: nat): nat {
    if start + HEADER <= |m| && ResVect(FieldsAt(m, start).flags) then 0xFFA0_0000 else 0xFFA0_8000
  }

  method FirstVector(mem: array<byte>, start: nat, init: Routines, ghost n: nat) returns (evt1: nat)
    requires Run(Loader(init), mem[..], start, n).Some?
    ensures evt1 == EntryVector(mem[..], start)
  {
    HeaderThere(init, mem[..], start, n);
    var h := ReadHeader(mem, start);
    evt1 := if ResVect(h.flags) then 0xFFA0_0000 else 0xFFA0_8000;
  }

  lemma LoaderLoads(init: Routines)
    ensures Loads(Loader(init), init)
  {
  }

  lemma HeaderThere(init: Routines, m: seq<byte>, base: nat, n: nat)
    requires Run(Loader(init), m, base, n).Some?
    ensures base + HEADER <= |m|
  {
    assert TurnAt(init, m, base).Some?;
  }

  /** The loop. */
  method LoadBlocks(mem: array<byte>, start: nat, init: Routines, ghost step: Stepper, ghost n: nat)
    returns (end: nat, calls: seq<nat>)
    requires Loads(step, init) && Run(step, mem[..], start, n).Some?
    modifies mem
    ensures Run(step, old(mem[..]), start, n) == Some(Done(mem[..], end, calls))
  {
    end, calls := start, [];
    ghost var left, result := n, Run(step, mem[..], start, n).value;
    LeadsAtFirst(step, mem[..], start, n);
    var more := true;
    while more
      invariant more ==> Leads(step, mem[..], end, left, calls, result)
      invariant !more ==> result == Done(mem[..], end, calls)
      decreases more, left
    {
      ghost var turn := LeadsOn(step, mem[..], end, left, calls, result);
      var called;
      end, more, called := LoadNext(mem, end, init, step);
      assert turn == Turn(mem[..], end, !more, called);
      calls := calls + called;
      left := left - 1;
    }
  }

  /** After the calls made so far, the run from here gives the result. */
  predicate Leads(step: Stepper, m: seq<byte>, base: nat, n: nat, calls: seq<nat>, result: Done) {
    Onward(calls, Run(step, m, base, n)) == Some(result)
  }

  lemma LeadsAtFirst(step: Stepper, m: seq<byte>, base: nat, n: nat)
    requires Run(step, m, base, n).Some?
    ensures Leads(step, m, base, n, [], Run(step, m, base, n).value)
  {
    var d := Run(step, m, base, n).value;
    assert [] + d.calls == d.calls;
  }

  /** One turn leads to the result, or to a place from which the rest does. */
  lemma LeadsOn(step: Stepper, m: seq<byte>, base: nat, n: nat, calls: seq<nat>, result: Done) returns (t: Turn)
    requires Leads(step, m, base, n, calls, result)
    ensures n > 0 && step(m, base) == Some(t)
    ensures t.final ==> result == Done(t.mem, t.next, calls + t.called)
    ensures !t.final ==> Leads(step, t.mem, t.next, n - 1, calls + t.called, result)
  {
    t := step(m, base).value;
    if !t.final {
      var rest := Run(step, t.mem, t.next, n - 1).value;
      assert calls + (t.called + rest.calls) == calls + t.called + rest.calls;
    }
  }

  /** One turn of the loop. */
  method LoadNext(mem: array<byte>, base: nat, init: Routines, ghost step: Stepper)
    returns (next: nat, more: bool, called: seq<nat>)
    requires Loads(step, init) && step(mem[..], base).Some?
    modifies mem
    ensures step(old(mem[..]), base) == Some(Turn(mem[..], next, !more, called))
  {
    assert TurnAt(init, mem[..], base).Some?;
    var h := ReadHeader(mem, base);
    next, more, called := LoadOne(mem, base + HEADER, h, init);
  }

  method LoadOne(mem: array<byte>, p: nat, h: Fields, init: Routines)
    returns (next: nat, more: bool, called: seq<nat>)
    requires Defined(mem[..], p, h)
    modifies mem
    ensures Turn(mem[..], next, !more, called) == TurnWith(init, old(mem[..]), p, h)
  {
    LoadBlock(mem, p, h);
    called := if !Ignore(h.flags) && Init(h.flags) then [h.addr] else [];
    CallInit(mem, init, called);
    next := if ZeroFill(h.flags) then p else p + h.count;
    more := !Final(h.flags);
  }

  method CallInit(mem: array<byte>, init: Routines, called: seq<nat>)
    modifies mem
    ensures mem[..] == Called(init, called, old(mem[..]))
  {
    var r := Called(init, called, mem[..]);
    for x := 0 to mem.Length
      invariant forall y :: 0 <= y < x ==> mem[y] == r[y]
    {
      mem[x] := r[x];
    }
  }

  // ----- a run means its block list -----

  /** INIT routines that leave memory alone. */
  ghost predicate Quiet(init: Routines) {
    forall a: nat, m: seq<byte> :: init(a, m) == m
  }

  /** Memory holds the bytes `s` from `p` on. */
  predicate Holds(m: seq<byte>, p: nat, s: seq<byte>) {
    p + |s| <= |m| && m[p..p + |s|] == s
  }

  lemma HoldsAt(m: seq<byte>, p: nat, s: seq<byte>, k: nat)
    requires Holds(m, p, s) && k < |s|
    ensures m[p + k] == s[k]
  {
    assert m[p..p + |s|][k] == m[p + k];
  }

  lemma HoldsParts(m: seq<byte>, p: nat, s: seq<byte>, t: seq<byte>)
    requires Holds(m, p, s + t)
    ensures Holds(m, p, s) && Holds(m, p + |s|, t)
  {
    var u := m[p..p + |s + t|];
    assert (s + t)[..|s|] == s && (s + t)[|s|..] == t;
    assert u[..|s|] == m[p..p + |s|] && u[|s|..] == m[p + |s|..p + |s| + |t|];
  }

  lemma StillHolds(m: seq<byte>, n: seq<byte>, p: nat, s: seq<byte>, stop: nat)
    requires Holds(m, p, s) && |n| == |m| && p + |s| <= stop <= |m|
    requires forall x :: p <= x < stop ==> n[x] == m[x]
    ensures Holds(n, p, s)
  {
  }

  /** The block at the front of the part of the stream still to be read. */
  lemma FrontBlock(m: seq<byte>, p: nat, bs: seq<Block>)
    requires bs != [] && AllOk(bs) && Holds(m, p, Stream(bs))
    ensures |Stream(bs)| == Size(bs[0]) + |Stream(bs[1..])|
    ensures Holds(m, p, Header(bs[0])) && Holds(m, p + HEADER, bs[0].payload)
    ensures Holds(m, p + Size(bs[0]), Stream(bs[1..]))
  {
    HoldsParts(m, p, Header(bs[0]) + bs[0].payload, Stream(bs[1..]));
    HoldsParts(m, p, Header(bs[0]), bs[0].payload);
  }

  /** What the loader still has to do at `base`: memory `m` held these blocks from there to `stop`. */
  predicate Ahead(m: seq<byte>, bs: seq<Block>, base: nat, stop: nat) {
    if bs == [] then base == stop
    else
      && BlockOk(bs[0])
      && Holds(m, base, Header(bs[0])) && Holds(m, base + HEADER, bs[0].payload)
      && BlockLoadable(bs[0], base, stop, |m|)
      && (Final(bs[0].flags) <==> |bs| == 1)
      && base + Size(bs[0]) <= stop <= |m|
      && Ahead(m, bs[1..], base + Size(bs[0]), stop)
  }

  lemma {:induction false} AheadOfImage(m: seq<byte>, bs: seq<Block>, base: nat, stop: nat)
    requires forall i :: 0 <= i < |bs| ==> BlockOk(bs[i]) && (Final(bs[i].flags) <==> i == |bs| - 1)
    requires Holds(m, base, Stream(bs)) && stop == base + |Stream(bs)| && Loadable(bs, base, stop, |m|)
    ensures Ahead(m, bs, base, stop)
    decreases |bs|
  {
    if bs != [] {
      FrontBlock(m, base, bs);
      AheadOfImage(m, bs[1..], base + Size(bs[0]), stop);
    }
  }

  /** A serialized header is read as the block's fields. */
  lemma HeaderOfBlock(m: seq<byte>, p: nat, b: Block)
    requires BlockOk(b) && Holds(m, p, Header(b))
    ensures FieldsAt(m, p) == Fields(b.addr, b.count, b.flags)
  {
    var h := Header(b);
    HeaderReads(b);
    forall k | 0 <= k < HEADER ensures m[p + k] == h[k] {
      HoldsAt(m, p, h, k);
    }
    assert h[0] == m[p + 0];
  }

  /** Loading one block puts its values where it covers memory, and nothing elsewhere. */
  lemma AfterBlock(m: seq<byte>, p: nat, b: Block, end: nat)
    requires BlockOk(b) && Holds(m, p, b.payload) && HEADER <= p && p + |b.payload| <= end <= |m|
    requires BlockLoadable(b, p - HEADER, end, |m|)
    ensures var h := Fields(b.addr, b.count, b.flags);
            && Defined(m, p, h)
            && forall x: nat :: x < |m| ==> After(m, p, h)[x] == if Covers(b, x) then Value(b, x) else m[x]
  {
    forall k: nat | k < |b.payload| ensures m[p + k] == b.payload[k] {
      HoldsAt(m, p, b.payload, k);
    }
    var h := Fields(b.addr, b.count, b.flags);
    forall x: nat | x < |m| ensures After(m, p, h)[x] == if Covers(b, x) then Value(b, x) else m[x] {
      assert Covers(b, x) && !ZeroFill(b.flags) ==> m[p + (x - b.addr)] == b.payload[x - b.addr];
    }
  }

  /** One block in front: the others decide first, then it, then what stood there before. */
  lemma LeavesFront(b: Block, bs: seq<Block>, x: nat, was: byte, v: byte)
    requires AllOk(bs) && BlockOk(b) && Leaves(bs, x, if Covers(b, x) then Value(b, x) else was, v)
    ensures AllOk([b] + bs) && Leaves([b] + bs, x, was, v)
  {
    var all := [b] + bs;
    assert AllOk(all);
    forall i | 0 <= i < |all| && Covers(all[i], x) && (forall j :: i < j < |all| ==> !Covers(all[j], x))
      ensures v == Value(all[i], x)
    {
      LastStays(b, bs, x, i);
    }
    if forall i :: 0 <= i < |all| ==> !Covers(all[i], x) {
      assert !Covers(all[0], x);
      NoneStays(b, bs, x, 0);
    }
  }

  lemma NoneStays(b: Block, bs: seq<Block>, x: nat, i: nat)
    requires forall j :: i < j < |[b] + bs| ==> !Covers(([b] + bs)[j], x)
    ensures forall j :: i <= j < |bs| ==> !Covers(bs[j], x)
  {
    forall j | i <= j < |bs| ensures !Covers(bs[j], x) {
      assert ([b] + bs)[j + 1] == bs[j];
    }
  }

  lemma LastStays(b: Block, bs: seq<Block>, x: nat, i: nat)
    requires i < |[b] + bs| && Covers(([b] + bs)[i], x) && forall j :: i < j < |[b] + bs| ==> !Covers(([b] + bs)[j], x)
    ensures if i == 0 then Covers(b, x) && forall j :: 0 <= j < |bs| ==> !Covers(bs[j], x)
            else && bs[i - 1] == ([b] + bs)[i] && Covers(bs[i - 1], x)
                 && forall j :: i - 1 < j < |bs| ==> !Covers(bs[j], x)
  {
    NoneStays(b, bs, x, i);
  }

  lemma LoadedFront(b: Block, bs: seq<Block>, m: seq<byte>, m': seq<byte>, n: seq<byte>)
    requires BlockOk(b) && |m| == |m'| && Loaded(bs, m', n)
    requires forall x: nat :: x < |m| ==> m'[x] == if Covers(b, x) then Value(b, x) else m[x]
    ensures Loaded([b] + bs, m, n)
  {
    forall x: nat | x < |m| ensures AllOk([b] + bs) && Leaves([b] + bs, x, m[x], n[x]) {
      LeavesFront(b, bs, x, m[x], n[x]);
    }
    assert forall i :: 0 <= i < |bs| ==> ([b] + bs)[i + 1] == bs[i];
  }

  lemma LoadedNothing(m: seq<byte>)
    ensures Loaded([], m, m)
  {
  }

  /** Turn `t` on memory `n` does what block `b` says. */
  predicate Does(t: Turn, b: Block, n: seq<byte>) {
    && BlockOk(b) && t.called == InitCall(b.addr, b.flags) && |t.mem| == |n|
    && forall x: nat :: x < |n| ==> t.mem[x] == if Covers(b, x) then Value(b, x) else n[x]
  }

  /** The turns from memory `n` do what the blocks say, one after the other. */
  predicate AllDo(ts: seq<Turn>, bs: seq<Block>, n: seq<byte>) {
    if bs == [] || ts == [] then ts == [] && bs == []
    else Does(ts[0], bs[0], n) && AllDo(ts[1..], bs[1..], ts[0].mem)
  }

  /** These are the turns that the loader takes from `base`, and the last one is FINAL. */
  predicate Takes(step: Stepper, m: seq<byte>, base: nat, ts: seq<Turn>)
    decreases |ts|
  {
    && ts != [] && step(m, base) == Some(ts[0]) && (ts[0].final <==> |ts| == 1)
    && (|ts| > 1 ==> Takes(step, ts[0].mem, ts[0].next, ts[1..]))
  }

  /** What a run of those turns gives. */
  function Total(ts: seq<Turn>): Done
    requires ts != []
  {
    if |ts| == 1 then Done(ts[0].mem, ts[0].next, ts[0].called)
    else
      var d := Total(ts[1..]);
      d.(calls := ts[0].called + d.calls)
  }

  lemma {:induction false} RunTakes(step: Stepper, m: seq<byte>, base: nat, ts: seq<Turn>)
    requires Takes(step, m, base, ts)
    ensures Run(step, m, base, |ts|) == Some(Total(ts))
    decreases |ts|
  {
    if |ts| > 1 {
      RunTakes(step, ts[0].mem, ts[0].next, ts[1..]);
    }
  }

  lemma {:induction false} TotalMeans(ts: seq<Turn>, bs: seq<Block>, n: seq<byte>)
    requires ts != [] && AllDo(ts, bs, n)
    ensures Total(ts).calls == InitCalls(bs) && Loaded(bs, n, Total(ts).mem)
    decreases |ts|
  {
    var b, rest, m := bs[0], bs[1..], ts[0].mem;
    assert bs == [b] + rest;
    if |ts| == 1 {
      assert rest == [];
      LoadedNothing(m);
      LoadedFront(b, [], n, m, m);
    } else {
      TotalMeans(ts[1..], rest, m);
      LoadedFront(b, rest, n, m, Total(ts[1..]).mem);
    }
  }

  /** The turns taken over memory `n`, which still agrees with `m` on the part of the stream ahead. */
  lemma {:induction false} TurnsAhead(step: Stepper, init: Routines, m: seq<byte>, n: seq<byte>,
                                      bs: seq<Block>, base: nat, stop: nat)
    returns (ts: seq<Turn>)
    requires Loads(step, init) && Quiet(init) && bs != [] && Ahead(m, bs, base, stop) && |n| == |m|
    requires forall x :: base <= x < stop ==> n[x] == m[x]
    ensures Takes(step, n, base, ts) && AllDo(ts, bs, n) && |ts| == |bs| && Total(ts).end == stop
    decreases |bs|
  {
    var turn := TurnAhead(step, init, m, n, bs, base, stop);
    if |bs| == 1 {
      ts := [turn];
    } else {
      var rest := TurnsAhead(step, init, m, turn.mem, bs[1..], turn.next, stop);
      ts := [turn] + rest;
      assert ts[1..] == rest;
    }
  }

  /** The first block of the run. */
  lemma TurnAhead(step: Stepper, init: Routines, m: seq<byte>, n: seq<byte>, bs: seq<Block>, base: nat, stop: nat)
    returns (turn: Turn)
    requires Loads(step, init) && Quiet(init) && bs != [] && Ahead(m, bs, base, stop) && |n| == |m|
    requires forall x :: base <= x < stop ==> n[x] == m[x]
    ensures step(n, base) == Some(turn) && Does(turn, bs[0], n)
    ensures turn.next == base + Size(bs[0]) && (turn.final <==> |bs| == 1)
    ensures forall x :: turn.next <= x < stop ==> turn.mem[x] == m[x]
    ensures |bs| == 1 ==> turn.next == stop
  {
    var b := bs[0];
    StillHolds(m, n, base, Header(b), stop);
    StillHolds(m, n, base + HEADER, b.payload, stop);
    assert BlockLoadable(b, base, stop, |n|);
    turn := TurnBlock(step, init, n, base, b, stop);
    SparesAhead(turn, b, n, base, stop);
  }

  /** The block does not write over the part of the stream after it. */
  lemma SparesAhead(turn: Turn, b: Block, n: seq<byte>, base: nat, stop: nat)
    requires Does(turn, b, n) && BlockLoadable(b, base, stop, |n|) && stop <= |n|
    ensures forall x :: base + Size(b) <= x < stop ==> turn.mem[x] == n[x]
  {
  }

  lemma TurnBlock(step: Stepper, init: Routines, n: seq<byte>, base: nat, b: Block, stop: nat) returns (turn: Turn)
    requires Loads(step, init) && Quiet(init)
    requires BlockOk(b) && Holds(n, base, Header(b)) && Holds(n, base + HEADER, b.payload)
    requires BlockLoadable(b, base, stop, |n|) && base + Size(b) <= stop <= |n|
    ensures step(n, base) == Some(turn) && Does(turn, b, n)
    ensures turn.next == base + Size(b) && turn.final == Final(b.flags)
  {
    HeaderOfBlock(n, base, b);
    AfterBlock(n, base + HEADER, b, stop);
    turn := TurnWith(init, n, base + HEADER, Fields(b.addr, b.count, b.flags));
    assert TurnAt(init, n, base) == Some(turn);
  }

  /** Whatever the INIT routines do: a routine is called exactly for a block with the INIT bit and without
      the IGNORE bit, at the block's address, and it finds its own block loaded. */
  lemma InitFindsBlock(init: Routines, n: seq<byte>, base: nat, b: Block, stop: nat, m: seq<byte>)
    requires BlockOk(b) && Holds(n, base, Header(b)) && Holds(n, base + HEADER, b.payload)
    requires BlockLoadable(b, base, stop, |n|) && base + Size(b) <= stop <= |n|
    requires |m| == |n| && forall x: nat :: x < |n| ==> m[x] == if Covers(b, x) then Value(b, x) else n[x]
    ensures TurnAt(init, n, base).Some?
    ensures var t := TurnAt(init, n, base).value;
            && t.called == (if Words.And(b.flags, 0x0008) != 0 && Words.And(b.flags, 0x0010) == 0 then [b.addr] else [])
            && t.mem == if t.called != [] && |init(b.addr, m)| == |m| then init(b.addr, m) else m
  {
    HeaderOfBlock(n, base, b);
    AfterBlock(n, base + HEADER, b, stop);
    FlagMasks(b.flags);
    assert After(n, base + HEADER, Fields(b.addr, b.count, b.flags)) == m;
  }

  /** A RUN MEANS ITS BLOCK LIST.  On memory that holds the stream of `bs` and whose blocks leave the unread
      part of it alone, the loader reads exactly the stream, calls the INIT entry points in order, and leaves
      each byte as the last block that covers it has it, or as it was. */
  lemma RunMeansBlocks(init: Routines, m: seq<byte>, start: nat, bs: seq<Block>)
    requires Delivers(init, m, start, bs)
    ensures var r := Run(Loader(init), m, start, |bs|);
            && r.Some? && r.value.end == start + |Stream(bs)| && r.value.calls == InitCalls(bs)
            && Loaded(bs, m, r.value.mem)
    ensures EntryVector(m, start) == if ResVect(bs[0].flags) then 0xFFA0_0000 else 0xFFA0_8000
  {
    var step, stop := Loader(init), start + |Stream(bs)|;
    LoaderLoads(init);
    AheadOfImage(m, bs, start, stop);
    var ts := TurnsAhead(step, init, m, m, bs, start, stop);
    RunTakes(step, m, start, ts);
    TotalMeans(ts, bs, m);
    FirstFlags(m, start, bs);
  }

  /** Memory holds the stream of `bs` from `start` on, its blocks leave the unread part alone, and so do the
      INIT routines. */
  ghost predicate Delivers(init: Routines, m: seq<byte>, start: nat, bs: seq<Block>) {
    && Quiet(init) && BlocksOk(bs)
    && Holds(m, start, Stream(bs)) && Loadable(bs, start, start + |Stream(bs)|, |m|)
  }

  predicate Delivered(bs: seq<Block>, m: seq<byte>, start: nat, d: Done, evt1: nat) {
    && bs != [] && Loaded(bs, m, d.mem) && d.calls == InitCalls(bs) && d.end == start + |Stream(bs)|
    && evt1 == if ResVect(bs[0].flags) then 0xFFA0_0000 else 0xFFA0_8000
  }

  lemma RunDelivers(init: Routines, m: seq<byte>, start: nat, bs: seq<Block>, n: nat)
    requires Delivers(init, m, start, bs) && Run(Loader(init), m, start, n).Some?
    ensures Delivered(bs, m, start, Run(Loader(init), m, start, n).value, EntryVector(m, start))
  {
    var step := Loader(init);
    RunMeansBlocks(init, m, start, bs);
    if n <= |bs| {
      RunBound(step, m, start, n, |bs|);
    } else {
      RunBound(step, m, start, |bs|, n);
    }
  }

  lemma FirstFlags(m: seq<byte>, start: nat, bs: seq<Block>)
    requires BlocksOk(bs) && Holds(m, start, Stream(bs))
    ensures start + HEADER <= |m| && FieldsAt(m, start).flags == bs[0].flags
  {
    FrontBlock(m, start, bs);
    HeaderOfBlock(m, start, bs[0]);
  }
}
