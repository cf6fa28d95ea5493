/**
  `API_env_enum` of api/api.c: walking the environment block entry by entry.

  The block is a sequence of "name=value" strings, each closed by a NUL, and one more NUL at the end.
 */
module Environment {
  import opened Wrappers

  const NUL: char := 0 as char

  /** What is stored in `*next`: NULL, the caller's own `last`, or the address of an entry. */
  datatype Next = Null | Unchanged | Entry(at: nat)

  function CharAt(env: string, i: nat): char {
    if i < |env| then env[i] else NUL
  }

  /** Where the C string at `i` ends. */
  function Stop(env: string, i: nat): (n: nat)
    ensures i <= n && CharAt(env, n) == NUL && (i <= |env| ==> n <= |env|)
    ensures forall j :: i <= j < n ==> CharAt(env, j) != NUL
    decreases |env| - i
  {
    if CharAt(env, i) == NUL then i else Stop(env, i + 1)
  }

  /** `envmatch`: does the name at the front of `last` equal the name at the front of `s`?  Both must
      hold a '=' before they end, or the comparison runs past the end; that case is taken as no match. */
  predicate Matches(last: string, s: string) {
    if last == [] then s != [] && s[0] == '='
    else if s == [] || s[0] != last[0] then false
    else last[0] == '=' || Matches(last[1..], s[1..])
  }

  /** The scan of `API_env_enum`, from the entry at `i` on. */
  function Scan(env: string, i: nat, size: nat, last: string): Next
    decreases |env| - i
  {
    var n := Stop(env, i);
    if n == i || n > size then Unchanged
    else if !Matches(last, env[i..]) then Scan(env, n + 1, size, last)
    else if CharAt(env, n + 1) == NUL then Null
    else Entry(n + 1)
  }

  /** The inner loop: the end of the entry at `i`, or failure when it passes `size`. */
  method EntryEnd(env: string, size: nat, i: nat) returns (n: nat, ok: bool)
    requires size < |env|
    ensures ok <==> i == Stop(env, i) || Stop(env, i) <= size
    ensures ok ==> n == Stop(env, i)
  {
    n := i;
    while CharAt(env, n) != NUL
      invariant i <= n <= Stop(env, i) && (n == i || n <= size)
      decreases Stop(env, i) - n
    {
      if n >= size {
        return n, false;
      }
      n := n + 1;
    }
    ok := true;
  }

  /** `API_env_enum`; `size` is CONFIG_ENV_SIZE, within which the block is readable. */
  method EnvEnum(env: string, size: nat, last: Option<string>) returns (next: Next)
    requires size < |env|
    ensures next == if last.None? then Entry(0) else Scan(env, 0, size, last.value)
  {
    if last.None? {
      return Entry(0);
    }
    next := Unchanged;
    var i: nat := 0;
    while CharAt(env, i) != NUL
      invariant Scan(env, i, size, last.value) == Scan(env, 0, size, last.value)
      decreases |env| - i
    {
      var n, ok := EntryEnd(env, size, i);
      if !ok {
        return;
      }
      if !Matches(last.value, env[i..]) {
        i := n + 1;
        continue;
      }
      i := n + 1;
      if CharAt(env, i) == NUL {
        return Null;
      }
      return Entry(i);
    }
  }

  // ----- well-formed blocks -----

  /** An entry has a name, a '=' and a value, and no NUL. */
  predicate EntryOk(e: string) {
    '=' in e && NUL !in e
  }

  /** The name in a string "name" or "name=value". */
  function Name(e: string): string {
    if e == [] || e[0] == '=' then [] else [e[0]] + Name(e[1..])
  }

  predicate EntriesOk(es: seq<string>) {
    forall k :: 0 <= k < |es| ==> EntryOk(es[k])
  }

  predicate DistinctNames(es: seq<string>) {
    forall j, k :: 0 <= j < k < |es| ==> Name(es[j]) != Name(es[k])
  }

  function Block(es: seq<string>): string {
    if es == [] then [NUL] else es[0] + ([NUL] + Block(es[1..]))
  }

  /** Where entry `k` starts. */
  function Offset(es: seq<string>, k: nat): nat
    requires k <= |es|
  {
    if k == 0 then 0 else |es[0]| + 1 + Offset(es[1..], k - 1)
  }

  /** The first entry called `name`; the number of entries when there is none. */
  function FirstNamed(es: seq<string>, name: string): (k: nat)
    ensures k <= |es| && (k < |es| ==> Name(es[k]) == name)
    ensures forall j :: 0 <= j < k ==> Name(es[j]) != name
  {
    if es == [] || Name(es[0]) == name then 0 else 1 + FirstNamed(es[1..], name)
  }

  lemma NameStarts(e: string)
    requires e != [] && e[0] != '='
    ensures Name(e) != [] && Name(e)[0] == e[0] && Name(e)[1..] == Name(e[1..])
  {
  }

  /** `envmatch` compares names exactly, whether the caller passes "name" or "name=value". */
  lemma {:induction false} MatchesNames(last: string, e: string, r: string)
    requires '=' in e
    ensures Matches(last, e + r) <==> Name(last) == Name(e)
  {
    assert (e + r)[0] == e[0] && (e + r)[1..] == e[1..] + r;
    if last != [] && last[0] != '=' {
      NameStarts(last);
    }
    if e[0] != '=' {
      NameStarts(e);
    }
    if last != [] && last[0] == e[0] && last[0] != '=' {
      assert e == [e[0]] + e[1..];
      MatchesNames(last[1..], e[1..], r);
      SameName(last, e);
    }
  }

  lemma SameName(a: string, b: string)
    requires a != [] && b != [] && a[0] == b[0] && a[0] != '='
    ensures Name(a) == Name(b) <==> Name(a[1..]) == Name(b[1..])
  {
    NameStarts(a);
    NameStarts(b);
    assert Name(a) == [a[0]] + Name(a[1..]);
    assert Name(b) == [b[0]] + Name(b[1..]);
  }

  /** The block's entries lie at `i`. */
  predicate Holds(env: string, i: nat, es: seq<string>) {
    i + |Block(es)| <= |env| && env[i..i + |Block(es)|] == Block(es)
  }

  lemma StopAt(env: string, i: nat, n: nat)
    requires i <= n && CharAt(env, n) == NUL && forall j :: i <= j < n ==> CharAt(env, j) != NUL
    ensures Stop(env, i) == n
  {
    var s := Stop(env, i);
    assert !(s < n) && !(n < s);
  }

  lemma HoldsRest(env: string, i: nat, es: seq<string>)
    requires Holds(env, i, es) && es != []
    ensures |Block(es)| == |es[0]| + 1 + |Block(es[1..])|
    ensures env[i..i + |es[0]|] == es[0] && env[i + |es[0]|] == NUL
    ensures Holds(env, i + |es[0]| + 1, es[1..])
  {
    Parts(env, i, es[0], Block(es[1..]));
  }

  lemma Parts(env: string, i: nat, e: string, r: string)
    requires i + |e| + 1 + |r| <= |env| && env[i..i + |e| + 1 + |r|] == e + ([NUL] + r)
    ensures env[i..i + |e|] == e && env[i + |e|] == NUL
    ensures env[i + |e| + 1..i + |e| + 1 + |r|] == r
  {
    var b := e + ([NUL] + r);
    assert b[..|e|] == e && b[|e|] == NUL && b[|e| + 1..] == r;
    var s := env[i..i + |b|];
    assert s[|e|] == env[i + |e|];
    assert s[..|e|] == env[i..i + |e|];
    assert s[|e| + 1..] == env[i + |e| + 1..i + |b|];
  }

  /** The front entry of a block, and what follows it. */
  lemma BlockFront(env: string, i: nat, es: seq<string>)
    requires Holds(env, i, es) && EntriesOk(es) && es != []
    ensures Stop(env, i) == i + |es[0]| && es[0] != [] && Holds(env, i + |es[0]| + 1, es[1..])
    ensures forall last :: Matches(last, env[i..]) <==> Name(last) == Name(es[0])
  {
    var e := es[0];
    var n := i + |e|;
    assert EntryOk(e);
    HoldsRest(env, i, es);
    forall j | i <= j < n ensures CharAt(env, j) != NUL {
      assert env[j] == env[i..n][j - i];
    }
    StopAt(env, i, n);
    assert env[i..] == e + env[n..];
    forall last ensures Matches(last, env[i..]) <==> Name(last) == Name(e) {
      MatchesNames(last, e, env[n..]);
    }
  }

  lemma BlockEnd(env: string, i: nat)
    requires Holds(env, i, [])
    ensures Stop(env, i) == i && CharAt(env, i) == NUL
  {
    assert env[i..i + 1][0] == NUL;
  }

  /** What a scan for `last` finds: the entry after the first one of that name. */
  function After(es: seq<string>, base: nat, last: string): Next {
    var k := FirstNamed(es, Name(last));
    if k == |es| then Unchanged
    else if k + 1 == |es| then Null
    else Entry(base + Offset(es, k + 1))
  }

  lemma AfterRest(es: seq<string>, base: nat, last: string)
    requires es != [] && Name(es[0]) != Name(last)
    ensures After(es, base, last) == After(es[1..], base + |es[0]| + 1, last)
  {
  }

  /** The entry that a scan for `last` stops at ends beyond the limit. */
  predicate Overrun(es: seq<string>, base: nat, size: nat, last: string) {
    var k := FirstNamed(es, Name(last));
    k < |es| && base + Offset(es, k) + |es[k]| > size
  }

  /** One call on a well-formed block, for any `last` and any limit: it finds the entry after the first one
      of that name unless that one ends beyond the limit. */
  lemma {:induction false} ScanExact(env: string, i: nat, es: seq<string>, size: nat, last: string)
    requires Holds(env, i, es) && EntriesOk(es)
    ensures Scan(env, i, size, last) == if Overrun(es, i, size, last) then Unchanged else After(es, i, last)
    decreases |es|
  {
    if es == [] {
      BlockEnd(env, i);
      return;
    }
    if i + |es[0]| > size {
      ScanOver(env, i, es, size, last);
    } else if Name(es[0]) == Name(last) {
      ScanHere(env, i, es, size, last);
    } else {
      ScanOn(env, i, es, size, last);
      AfterRest(es, i, last);
      var next := i + |es[0]| + 1;
      HoldsRest(env, i, es);
      ScanExact(env, next, es[1..], size, last);
    }
  }

  lemma ScanOver(env: string, i: nat, es: seq<string>, size: nat, last: string)
    requires Holds(env, i, es) && EntriesOk(es) && es != [] && i + |es[0]| > size
    ensures Scan(env, i, size, last) == Unchanged
    ensures Overrun(es, i, size, last) || After(es, i, last) == Unchanged
  {
    BlockFront(env, i, es);
  }

  lemma ScanHere(env: string, i: nat, es: seq<string>, size: nat, last: string)
    requires Holds(env, i, es) && EntriesOk(es)
    requires es != [] && i + |es[0]| <= size && Name(es[0]) == Name(last)
    ensures Scan(env, i, size, last) == After(es, i, last)
  {
    var rest, next := es[1..], i + |es[0]| + 1;
    BlockFront(env, i, es);
    HoldsRest(env, i, es);
    assert Offset(es, 1) == |es[0]| + 1;
    if rest == [] {
      BlockEnd(env, next);
    } else {
      BlockFront(env, next, rest);
    }
  }

  lemma ScanOn(env: string, i: nat, es: seq<string>, size: nat, last: string)
    requires Holds(env, i, es) && EntriesOk(es)
    requires es != [] && i + |es[0]| <= size && Name(es[0]) != Name(last)
    ensures Scan(env, i, size, last) == Scan(env, i + |es[0]| + 1, size, last)
  {
    BlockFront(env, i, es);
  }

  /** A block whose last entry ends within the limit. */
  predicate Fits(es: seq<string>, size: nat) {
    |Block(es)| <= size + 2
  }

  lemma {:induction false} EntryWithin(es: seq<string>, k: nat)
    requires k < |es|
    ensures Offset(es, k) + |es[k]| + 2 <= |Block(es)|
    decreases k
  {
    if k > 0 {
      EntryWithin(es[1..], k - 1);
    }
  }

  /** Then there is no overrun. */
  lemma ScanFits(env: string, es: seq<string>, size: nat, last: string)
    requires Holds(env, 0, es) && EntriesOk(es) && Fits(es, size)
    ensures Scan(env, 0, size, last) == After(es, 0, last)
  {
    ScanExact(env, 0, es, size, last);
    var k := FirstNamed(es, Name(last));
    if k < |es| {
      EntryWithin(es, k);
    }
  }

  /** Entry `k` is the C string at its offset. */
  lemma {:induction false} BlockAt(env: string, i: nat, es: seq<string>, k: nat)
    requires Holds(env, i, es) && EntriesOk(es) && k < |es|
    ensures var at := i + Offset(es, k); var n := Stop(env, at);
            at <= |env| && n <= |env| && env[at..n] == es[k]
    decreases k
  {
    BlockFront(env, i, es);
    HoldsRest(env, i, es);
    if k > 0 {
      BlockAt(env, i + |es[0]| + 1, es[1..], k - 1);
    }
  }

  /** With distinct names, the call after entry `k` gives entry `k + 1`. */
  lemma NextEntry(env: string, es: seq<string>, size: nat, k: nat)
    requires Holds(env, 0, es) && EntriesOk(es) && DistinctNames(es) && k < |es| && Fits(es, size)
    ensures var at := Offset(es, k);
            && at <= |env| && Stop(env, at) <= |env|
            && Scan(env, 0, size, env[at..Stop(env, at)]) == if k + 1 < |es| then Entry(Offset(es, k + 1)) else Null
  {
    BlockAt(env, 0, es, k);
    ScanFits(env, es, size, es[k]);
    assert FirstNamed(es, Name(es[k])) == k;
  }

  /** A client's loop: ask with NULL, then with each entry returned, until NULL comes back. */
  method ListEnvironment(env: string, size: nat, ghost es: seq<string>) returns (starts: seq<nat>)
    requires size < |env| && Holds(env, 0, es)
    requires es != [] && EntriesOk(es) && DistinctNames(es) && Fits(es, size)
    ensures |starts| == |es| && forall k :: 0 <= k < |es| ==> starts[k] == Offset(es, k)
  {
    starts := [];
    var next := EnvEnum(env, size, None);
    ghost var k := 0;
    while next != Null
      invariant 0 <= k <= |es| && |starts| == k
      invariant forall j :: 0 <= j < k ==> starts[j] == Offset(es, j)
      invariant next == if k < |es| then Entry(Offset(es, k)) else Null
      decreases |es| - k
    {
      NextEntry(env, es, size, k);
      var at := next.at;
      starts := starts + [at];
      next := EnvEnum(env, size, Some(env[at..Stop(env, at)]));
      k := k + 1;
    }
  }

  // ----- when a client's loop ends -----

  /** The entry a client holds after `n` further calls; `None` once NULL came back. */
  function Visited(es: seq<string>, n: nat): (k: Option<nat>)
    requires es != []
    ensures k.Some? ==> k.value < |es|
  {
    if n == 0 then Some(0)
    else
      var at := Visited(es, n - 1);
      if at.None? then None
      else
        var next := FirstNamed(es, Name(es[at.value])) + 1;
        if next < |es| then Some(next) else None
  }

  predicate Finished(es: seq<string>, n: nat)
    requires es != []
  {
    Visited(es, n).None?
  }

  /** The walk agrees with the code: each call hands back the entry the client holds next. */
  lemma VisitedIsCode(env: string, es: seq<string>, size: nat, n: nat)
    requires Holds(env, 0, es) && EntriesOk(es) && es != [] && Fits(es, size)
    requires Visited(es, n).Some?
    ensures var k := Visited(es, n).value; var next := Visited(es, n + 1);
            Scan(env, 0, size, es[k]) == if next.Some? then Entry(Offset(es, next.value)) else Null
  {
    var k := Visited(es, n).value;
    ScanFits(env, es, size, es[k]);
    assert FirstNamed(es, Name(es[k])) <= k;
  }

  lemma {:induction false} WalksUpTo(es: seq<string>, d: nat, n: nat)
    requires es != [] && d <= |es| && n <= d < |es|
    requires forall j, k :: 0 <= j < k < d ==> Name(es[j]) != Name(es[k])
    ensures Visited(es, n) == Some(n)
  {
    if n > 0 {
      WalksUpTo(es, d, n - 1);
      var f := FirstNamed(es, Name(es[n - 1]));
      assert f >= n - 1;
    }
  }

  /** Once two entries share a name, no walk passes the second one. */
  lemma {:induction false} NeverPasses(es: seq<string>, j: nat, k: nat, n: nat)
    requires j < k < |es| && Name(es[j]) == Name(es[k])
    ensures Visited(es, n).Some? && Visited(es, n).value <= k
  {
    if n > 0 {
      NeverPasses(es, j, k, n - 1);
      var at := Visited(es, n - 1).value;
      var f := FirstNamed(es, Name(es[at]));
      assert f <= at;
      assert at == k ==> f <= j;
    }
  }

  /** A client's loop ends if and only if the names are distinct; a repeated name traps it for ever. */
  lemma WalkEndsIff(es: seq<string>)
    requires es != []
    ensures (exists n: nat :: Finished(es, n)) <==> DistinctNames(es)
  {
    if DistinctNames(es) {
      var n: nat := |es|;
      WalksUpTo(es, n - 1, n - 1);
      assert FirstNamed(es, Name(es[n - 1])) == n - 1;
      assert Finished(es, n);
    } else {
      var j: nat, k: nat :| j < k < |es| && Name(es[j]) == Name(es[k]);
      forall n: nat ensures !Finished(es, n) {
        NeverPasses(es, j, k, n);
      }
    }
  }

  /** Two entries of one name: the call after the second gives the second again, for ever. */
  lemma {:induction false} RepeatedName(size: nat, n: nat)
    requires size >= 7
    ensures var es := ["a=1", "a=2"];
            && Scan(Block(es), 0, size, es[1]) == Entry(4)
            && Visited(es, n) == Some(if n == 0 then 0 else 1)
  {
    var es := ["a=1", "a=2"];
    RepeatedNameFirst(es);
    ScanFits(Block(es), es, size, es[1]);
    if n > 0 {
      RepeatedName(size, n - 1);
    }
  }

  lemma RepeatedNameFirst(es: seq<string>)
    requires es == ["a=1", "a=2"]
    ensures EntriesOk(es) && Holds(Block(es), 0, es) && |Block(es)| == 9 && Offset(es, 1) == 4
    ensures Name(es[0]) == Name(es[1]) && FirstNamed(es, Name(es[0])) == 0
  {
    assert es[0][2] == '1' && es[0][1] == '=' && es[1][1] == '=';
    assert Name("=1") == [] && Name("=2") == [];
    assert es[0][1..] == "=1" && es[1][1..] == "=2";
    assert es[1..] == ["a=2"] && es[1..][1..] == [];
    var rest := es[1..];
    assert Block(rest) == rest[0] + ([NUL] + Block(rest[1..])) && |Block(rest[1..])| == 1;
    assert |rest[0]| == 3 && |es[0]| == 3;
    assert |Block(es)| == |es[0]| + 1 + |Block(rest)|;
    var b := Block(es);
    assert b[0..|b|] == b;
  }

  /** An empty environment: the first call hands back not NULL but the closing NUL, and asking on from
      there never gives NULL. */
  lemma EmptyBlockNeverEnds(env: string, size: nat, last: string)
    requires Holds(env, 0, [])
    ensures Stop(env, 0) == 0 && Scan(env, 0, size, last) == Unchanged
  {
    BlockEnd(env, 0);
  }
}
