/**
  The assembler's text: character classes, word splitting, number reading and number printing.

  A string is the content of a C string, without its terminating NUL.
 */
module Text {
  import opened Words

  // ----- character classes (lib/ctype.c) -----

  predicate IsBlank(c: char) {
    9 <= c as int <= 13 || c == ' ' || c as int == 160
  }

  predicate IsDigit(c: char) {
    '0' <= c <= '9'
  }

  predicate IsHexDigit(c: char) {
    IsDigit(c) || 'a' <= c <= 'f' || 'A' <= c <= 'F'
  }

  predicate IsUpper(c: char) {
    'A' <= c <= 'Z' || (192 <= c as int <= 222 && c as int != 215)
  }

  function ToLower(c: char): char {
    if IsUpper(c) then (c as int + 32) as char else c
  }

  /** A character that `get_word` keeps. */
  predicate IsWordChar(c: char) {
    !IsBlank(c) && c != ','
  }

  predicate AllWordChars(s: string) {
    forall c :: c in s ==> IsWordChar(c)
  }

  predicate HasUpper(s: string) {
    exists c :: c in s && IsUpper(c)
  }

  // ----- downstring -----

  function Lowered(s: string): (r: string)
    ensures |r| == |s|
    ensures forall i :: 0 <= i < |s| ==> r[i] == ToLower(s[i])
    ensures !HasUpper(s) ==> r == s
    ensures !HasUpper(r)
  {
    if s == [] then [] else [ToLower(s[0])] + Lowered(s[1..])
  }

  method DownString(s: array<char>)
    modifies s
    ensures s[..] == Lowered(old(s[..]))
  {
    for i := 0 to s.Length
      invariant forall k :: 0 <= k < i ==> s[k] == ToLower(old(s[k]))
      invariant forall k :: i <= k < s.Length ==> s[k] == old(s[k])
    {
      if IsUpper(s[i]) {
        s[i] := ToLower(s[i]);
      }
    }
  }

  // ----- get_word -----

  datatype Token = Token(word: string, rest: string)

  function SkipBlanks(s: string): string {
    if s != [] && IsBlank(s[0]) then SkipBlanks(s[1..]) else s
  }

  function WordOf(s: string): (w: string)
    ensures |w| <= |s| && w == s[..|w|]
    ensures AllWordChars(w)
    ensures |w| == |s| || !IsWordChar(s[|w|])
  {
    if s == [] || !IsWordChar(s[0]) then [] else [s[0]] + WordOf(s[1..])
  }

  /** The word at the front of `s`, and what follows it with one comma removed. */
  function NextToken(s: string): (t: Token)
    ensures AllWordChars(t.word)
    ensures |t.rest| <= |s|
    ensures t.word != [] ==> |t.rest| < |s|
  {
    SkipBlanksShorter(s);
    var text := SkipBlanks(s);
    var word := WordOf(text);
    var rest := text[|word|..];
    Token(word, if rest != [] && rest[0] == ',' then rest[1..] else rest)
  }

  lemma {:induction false} SkipBlanksShorter(s: string)
    ensures |SkipBlanks(s)| <= |s|
    ensures SkipBlanks(s) == s[|s| - |SkipBlanks(s)|..]
  {
    if s != [] && IsBlank(s[0]) {
      SkipBlanksShorter(s[1..]);
    }
  }

  /** The blank-skipping loop of `get_word`. */
  method SkipToWord(text: string, src: nat) returns (ptr: nat)
    requires src <= |text|
    ensures src <= ptr <= |text|
    ensures text[ptr..] == SkipBlanks(text[src..])
    ensures ptr == |text| || !IsBlank(text[ptr])
  {
    ptr := src;
    while ptr < |text| && IsBlank(text[ptr])
      invariant src <= ptr <= |text|
      invariant SkipBlanks(text[ptr..]) == SkipBlanks(text[src..])
    {
      assert text[ptr..][1..] == text[ptr + 1..];
      ptr := ptr + 1;
    }
  }

  /** `get_word`: `src` is the pointer into `text` and `next` its new value. */
  method GetWord(text: string, src: nat) returns (word: string, next: nat)
    requires src <= |text|
    ensures next <= |text|
    ensures Token(word, text[next..]) == NextToken(text[src..])
  {
    var start := SkipToWord(text, src);
    var ptr := start;
    word := [];
    while ptr < |text| && !IsBlank(text[ptr]) && text[ptr] != ','
      invariant start <= ptr <= |text|
      invariant word == text[start..ptr]
      invariant AllWordChars(word)
    {
      word := word + [text[ptr]];
      ptr := ptr + 1;
    }
    next := if ptr < |text| && text[ptr] == ',' then ptr + 1 else ptr;
    var rest := text[ptr..];
    assert text[start..] == word + rest by { assert text[start..] == text[start..ptr] + text[ptr..]; }
    WordReadBack(word, rest);
    assert (word + rest)[|word|..] == rest;
  }

  /** A run of word characters, followed by nothing or a separator, is read back as one word. */
  lemma {:induction false} WordReadBack(w: string, r: string)
    requires AllWordChars(w) && (r == [] || !IsWordChar(r[0]))
    ensures WordOf(w + r) == w
  {
    if w == [] {
      assert w + r == r;
    } else {
      assert (w + r)[1..] == w[1..] + r;
      WordReadBack(w[1..], r);
    }
  }

  lemma TokenReadBack(w: string, r: string)
    requires w != [] && AllWordChars(w) && (r == [] || !IsWordChar(r[0]))
    ensures NextToken(w + r) == Token(w, if r != [] && r[0] == ',' then r[1..] else r)
  {
    assert (w + r)[0] == w[0] && w[0] in w;
    WordReadBack(w, r);
    assert (w + r)[|w|..] == r;
  }

  lemma {:induction false} SkipLeading(b: string, s: string)
    requires forall c :: c in b ==> IsBlank(c)
    ensures NextToken(b + s) == NextToken(s)
  {
    if b == [] {
      assert b + s == s;
    } else {
      assert (b + s)[1..] == b[1..] + s;
      SkipLeading(b[1..], s);
    }
  }

  // ----- numbers -----

  function DigitValue(c: char): nat
    requires IsHexDigit(c)
  {
    if IsDigit(c) then c as int - '0' as int
    else if 'a' <= c then c as int - 'a' as int + 10
    else c as int - 'A' as int + 10
  }

  /** The digit loop of `simple_strtoul`. */
  function ReadDigits(s: string, base: nat, value: Word): Word {
    if s != [] && IsHexDigit(s[0]) && DigitValue(s[0]) < base then
      ReadDigits(s[1..], base, Wrap(value * base + DigitValue(s[0])))
    else value
  }

  /** `simple_strtoul` with a base of ten or sixteen: a leading "0x" overrides the base. */
  function Strtoul(s: string, base: nat): Word {
    if s != [] && s[0] == '0' then
      if |s| > 2 && s[1] == 'x' && IsHexDigit(s[2]) then ReadDigits(s[2..], 16, 0)
      else ReadDigits(s[1..], base, 0)
    else ReadDigits(s, base, 0)
  }

  function ReadMagnitude(s: string): Word {
    if |s| > 1 && s[0] == '0' && (s[1] == 'x' || s[1] == 'X') then Strtoul(s[2..], 16) else Strtoul(s, 10)
  }

  /** `read_number`; the result is the `long` as a word. */
  function ReadNumber(s: string): Word {
    if s != [] && s[0] == '-' then Wrap(0 - ReadMagnitude(s[1..])) else ReadMagnitude(s)
  }

  function DigitChar(d: nat): (c: char)
    requires d < 16
    ensures IsHexDigit(c) && DigitValue(c) == d && IsWordChar(c) && !IsUpper(c)
    ensures c == '0' <==> d == 0
    ensures IsDigit(c) <==> d < 10
  {
    if d < 10 then (d + '0' as int) as char else (d - 10 + 'a' as int) as char
  }

  /** Conversion to text in base `b`, as `%x` and `%u`: no leading zeros. */
  function Digits(x: nat, b: nat): (s: string)
    requires 2 <= b <= 16
    ensures s != [] && AllWordChars(s) && !HasUpper(s)
    ensures forall c :: c in s ==> IsHexDigit(c) && DigitValue(c) < b
    ensures s[0] == '0' <==> x == 0
    ensures x == 0 ==> |s| == 1
    decreases x
  {
    if x < b then [DigitChar(x)]
    else
      QuotientSmaller(x, b);
      Digits(x / b, b) + [DigitChar(x % b)]
  }

  lemma QuotientSmaller(x: nat, b: nat)
    requires 2 <= b <= x
    ensures 1 <= x / b < x
  {}

  function Hex(x: Word): string {
    "0x" + Digits(x, 16)
  }

  /** `%08lx` */
  function FixedHex(x: nat, n: nat): (s: string)
    ensures |s| == n && AllWordChars(s)
    decreases n, x
  {
    if n == 0 then [] else FixedHex(x / 16, n - 1) + [DigitChar(x % 16)]
  }

  lemma Recompose(x: Word, b: nat)
    requires b > 0
    ensures Wrap(x / b * b + x % b) == x
  {}

  lemma {:induction false} ReadBackDigits(x: Word, b: nat, r: string)
    requires 2 <= b <= 16
    ensures ReadDigits(Digits(x, b) + r, b, 0) == ReadDigits(r, b, x)
    decreases x
  {
    if x < b {
      assert (Digits(x, b) + r)[1..] == r;
    } else {
      QuotientSmaller(x, b);
      var last := [DigitChar(x % b)];
      assert Digits(x, b) + r == Digits(x / b, b) + (last + r);
      ReadBackDigits(x / b, b, last + r);
      assert (last + r)[1..] == r;
      Recompose(x, b);
    }
  }

  /** The number reader inverts the number printer: after the printed digits it goes on from `x` with
      whatever follows them, and stops there unless that is one more digit.  The exception is a printed
      0 that the text makes the start of "0x". */
  lemma ReadBackStrtoul(x: Word, b: nat, r: string)
    requires b == 10 || b == 16
    ensures Strtoul(Digits(x, b) + r, b)
            == if x == 0 && |r| > 1 && r[0] == 'x' && IsHexDigit(r[1]) then ReadDigits(r[1..], 16, 0)
               else ReadDigits(r, b, x)
    ensures !(r != [] && IsHexDigit(r[0]) && DigitValue(r[0]) < b) ==> ReadDigits(r, b, x) == x
  {
    var s := Digits(x, b) + r;
    ReadBackDigits(x, b, r);
    if x == 0 {
      assert s[1..] == r;
      assert |r| > 1 ==> s[2..] == r[1..];
    }
  }

  lemma ReadBackHex(x: Word)
    ensures ReadNumber(Hex(x)) == x
  {
    ReadBackStrtoul(x, 16, []);
    assert Digits(x, 16) + [] == Digits(x, 16);
    assert Hex(x)[2..] == Digits(x, 16);
  }

  lemma ReadBackDecimal(x: Word)
    ensures ReadNumber(Digits(x, 10)) == x
  {
    ReadBackStrtoul(x, 10, []);
    var s := Digits(x, 10);
    assert s + [] == s;
    assert s[0] in s;
    if |s| > 1 {
      assert s[1] in s;
    }
  }

  // ----- what a user types -----

  const LOWER_DIGITS: string := "0123456789abcdef"
  const UPPER_DIGITS: string := "0123456789ABCDEF"

  /** `c` is digit number `d`, in either case. */
  predicate DigitIs(c: char, d: nat) {
    d < 16 && (c == LOWER_DIGITS[d] || c == UPPER_DIGITS[d])
  }

  /** `s` spells the digits `ds` of base `b`. */
  predicate Spelled(s: string, ds: seq<nat>, b: nat) {
    |s| == |ds| && forall i :: 0 <= i < |s| ==> DigitIs(s[i], ds[i]) && ds[i] < b
  }

  /** The number that digits `ds` stand for in base `b`, the last digit counting ones. */
  function Positional(ds: seq<nat>, b: nat): nat {
    if ds == [] then 0 else Positional(ds[..|ds| - 1], b) * b + ds[|ds| - 1]
  }

  lemma DigitChars(c: char, d: nat)
    requires DigitIs(c, d)
    ensures IsHexDigit(c) && DigitValue(c) == d && c != 'x' && c != 'X' && c != '-'
    ensures c == '0' <==> d == 0
  {
    if d < 10 {
      assert c == DigitChar(d);
    }
  }

  /** Reading digits one after the other, from value `v` on. */
  lemma {:induction false} ReadSpelled(s: string, ds: seq<nat>, b: nat, r: string)
    requires Spelled(s, ds, b)
    ensures ReadDigits(s + r, b, 0) == ReadDigits(r, b, Wrap(Positional(ds, b)))
    decreases |s|
  {
    if s == [] {
      assert s + r == r;
    } else {
      var n := |s| - 1;
      var last := [s[n]];
      assert s + r == s[..n] + (last + r);
      ReadSpelled(s[..n], ds[..n], b, last + r);
      DigitChars(s[n], ds[n]);
      assert (last + r)[1..] == r;
      WrapDigit(Positional(ds[..n], b), b, ds[n]);
    }
  }

  lemma WrapDigit(p: nat, b: nat, d: nat)
    ensures Wrap(Wrap(p) * b + d) == Wrap(p * b + d)
  {
    var q := p / 0x1_0000_0000;
    assert p == q * 0x1_0000_0000 + Wrap(p);
    assert p * b + d == (q * b) * 0x1_0000_0000 + (Wrap(p) * b + d);
    MultipleOfRange(Wrap(p) * b + d, q * b);
  }

  lemma MultipleOfRange(x: int, k: int)
    ensures Wrap(k * 0x1_0000_0000 + x) == Wrap(x)
  {
  }

  /** `simple_strtoul` on any digits, in either case, with leading zeros or without: their value modulo
      2^32.  It stops at the first character that is no digit of the base. */
  lemma StrtoulTyped(s: string, ds: seq<nat>, b: nat, r: string)
    requires (b == 10 || b == 16) && s != [] && Spelled(s, ds, b)
    requires r == [] || forall d :: 0 <= d < b ==> !DigitIs(r[0], d)
    requires !(ds == [0] && |r| > 1 && r[0] == 'x')
    ensures Strtoul(s + r, b) == Wrap(Positional(ds, b))
  {
    DigitChars(s[0], ds[0]);
    ReadSpelled(s, ds, b, r);
    StopsAt(r, b, Wrap(Positional(ds, b)));
    if s[0] == '0' {
      assert (s + r)[0] == '0' && (|s| == 1 ==> (s + r)[1..] == r);
      if |s| > 1 {
        assert (s + r)[1] == s[1];
        DigitChars(s[1], ds[1]);
      }
      LeadingZero(s + r, b);
    }
  }

  /** A leading 0 that does not start "0x" adds nothing. */
  lemma LeadingZero(s: string, b: nat)
    requires b > 0 && s != [] && s[0] == '0' && !(|s| > 2 && s[1] == 'x')
    ensures Strtoul(s, b) == ReadDigits(s, b, 0)
  {
  }

  lemma StopsAt(r: string, b: nat, v: Word)
    requires b <= 16 && (r == [] || forall d :: 0 <= d < b ==> !DigitIs(r[0], d))
    ensures ReadDigits(r, b, v) == v
  {
    if r != [] && IsHexDigit(r[0]) {
      assert DigitIs(r[0], DigitValue(r[0]));
    }
  }

  /** `read_number` on typed decimal numbers, with a sign or without. */
  lemma TypedDecimal(s: string, ds: seq<nat>)
    requires s != [] && Spelled(s, ds, 10)
    ensures ReadNumber(s) == Wrap(Positional(ds, 10)) && ReadNumber("-" + s) == Wrap(0 - Positional(ds, 10))
  {
    DigitChars(s[0], ds[0]);
    if |s| > 1 {
      DigitChars(s[1], ds[1]);
    }
    StrtoulTyped(s, ds, 10, []);
    assert s + [] == s && ("-" + s)[1..] == s;
    Negated(Positional(ds, 10));
  }

  /** `read_number` on typed hexadecimal numbers, with either prefix. */
  lemma TypedHex(s: string, ds: seq<nat>, x: char)
    requires s != [] && Spelled(s, ds, 16) && (x == 'x' || x == 'X')
    ensures ReadNumber(['0', x] + s) == Wrap(Positional(ds, 16))
    ensures ReadNumber(['-', '0', x] + s) == Wrap(0 - Positional(ds, 16))
  {
    StrtoulTyped(s, ds, 16, []);
    assert s + [] == s;
    assert (['0', x] + s)[2..] == s && (['-', '0', x] + s)[1..] == ['0', x] + s;
    Negated(Positional(ds, 16));
  }

  lemma Negated(p: nat)
    ensures Wrap(0 - Wrap(p)) == Wrap(0 - p)
  {
    MultipleOfRange(0 - Wrap(p), 0 - p / 0x1_0000_0000);
    assert 0 - p == (0 - p / 0x1_0000_0000) * 0x1_0000_0000 + (0 - Wrap(p));
  }

  /** The case of digits does not matter. */
  lemma {:induction false} CaseOfDigits(s: string, b: nat, v: Word)
    ensures ReadDigits(Lowered(s), b, v) == ReadDigits(s, b, v)
    decreases |s|
  {
    if s != [] {
      var low := Lowered(s);
      assert low[0] == ToLower(s[0]) && low[1..] == Lowered(s[1..]);
      CaseOfDigit(s[0]);
      if IsHexDigit(s[0]) {
        CaseOfDigits(s[1..], b, Wrap(v * b + DigitValue(s[0])));
      }
    }
  }

  lemma CaseOfDigit(c: char)
    ensures IsHexDigit(ToLower(c)) <==> IsHexDigit(c)
    ensures IsHexDigit(c) ==> DigitValue(ToLower(c)) == DigitValue(c)
  {
  }

  const CAPITALS: string := "ABCDEFGHIJKLMNOPQRSTUVWXYZ"
  const LETTERS: string := "abcdefghijklmnopqrstuvwxyz"

  lemma Alphabet(k: nat)
    requires k < 26
    ensures CAPITALS[k] as int == 65 + k && LETTERS[k] as int == 97 + k
  {
  }

  lemma CapitalLowered(c: char, k: nat)
    requires k < 26 && c == CAPITALS[k]
    ensures ToLower(c) == LETTERS[k]
  {
    Alphabet(k);
  }

  lemma CapitalFound(c: char)
    requires 65 <= c as int <= 90
    ensures c in CAPITALS
  {
    var k: nat := c as int - 65;
    Alphabet(k);
    assert c == CAPITALS[k];
  }

  lemma OtherKept(c: char)
    requires c as int < 128
    ensures c in CAPITALS || ToLower(c) == c
  {
    if 65 <= c as int <= 90 {
      CapitalFound(c);
    }
  }

  /** `downstring` on ASCII text: a capital becomes its small letter, all else stays. */
  lemma LoweredLetters(s: string, i: nat, k: nat)
    requires i < |s| && s[i] as int < 128 && k < 26
    ensures s[i] == CAPITALS[k] ==> Lowered(s)[i] == LETTERS[k]
    ensures s[i] !in CAPITALS ==> Lowered(s)[i] == s[i]
  {
    if s[i] == CAPITALS[k] {
      CapitalLowered(s[i], k);
    }
    OtherKept(s[i]);
  }

  /** Where `get_word` splits ASCII text: at blanks, tabs, line ends and form feeds, and at commas. */
  lemma WordChars(c: char)
    requires c as int < 128
    ensures IsWordChar(c) <==> c !in [' ', ',', 9 as char, 10 as char, 11 as char, 12 as char, 13 as char]
  {
  }
}
