/**
  Device enumeration of the external API: api/api_storage.c and `API_dev_enum` of api/api.c.

  A cookie is the address of a device descriptor, 0 for NULL.  `get_dev`, `eth_get_dev` and the
  descriptors' contents do not change while the API is used.
 */
module Storage {
  import opened Wrappers

  type Cookie = nat

  /** ENUM_IDE, ENUM_USB, ENUM_SCSI, ENUM_MMC, ENUM_SATA; ENUM_MAX stands for "no group". */
  const ENUM_MAX: nat := 5

  type Group = g: nat | g < 5

  /** The storage groups: how many slots each has, the descriptor in a slot (`get_dev`), whether a
      descriptor's device is present (its type is known), its size, and the current network device. */
  datatype Drives = Drives(maxDev: seq<nat>, dev: (nat, nat) -> Cookie, active: Cookie -> bool,
                           hasRead: Cookie -> bool, lba: Cookie -> nat, blksz: Cookie -> nat, net: Cookie)

  /** Descriptors of different slots are different. */
  ghost predicate Distinct(d: Drives) {
    && |d.maxDev| == ENUM_MAX
    && forall g: Group, i: nat, h: Group, j: nat {:trigger d.dev(g, i), d.dev(h, j)} ::
         i < d.maxDev[g] && j < d.maxDev[h] && d.dev(g, i) == d.dev(h, j) != 0 ==> g == h && i == j
  }

  /** Besides, a group without slots has no device, and the network device is not a storage device. */
  ghost predicate DrivesOk(d: Drives) {
    && Distinct(d)
    && (forall g: Group {:trigger d.maxDev[g]} :: d.maxDev[g] == 0 ==> d.dev(g, 0) == 0)
    && (forall g: Group, i: nat {:trigger d.dev(g, i)} :: i < d.maxDev[g] && d.net != 0 ==> d.dev(g, i) != d.net)
  }

  // ----- searches -----

  /** The first slot of a group from `i` on that holds a descriptor, or the number of slots. */
  function SlotFrom(d: Drives, g: Group, c: Cookie, i: nat): (r: nat)
    requires |d.maxDev| == ENUM_MAX && i <= d.maxDev[g]
    ensures i <= r <= d.maxDev[g]
    ensures r < d.maxDev[g] ==> d.dev(g, r) == c
    ensures forall j: nat :: i <= j < r ==> d.dev(g, j) != c
    decreases d.maxDev[g] - i
  {
    if i == d.maxDev[g] || d.dev(g, i) == c then i else SlotFrom(d, g, c, i + 1)
  }

  function SlotOf(d: Drives, g: Group, c: Cookie): nat
    requires |d.maxDev| == ENUM_MAX
  {
    SlotFrom(d, g, c, 0)
  }

  /** `dev_stor_type`, from group `g` on. */
  function TypeFrom(d: Drives, c: Cookie, g: nat): (r: nat)
    requires |d.maxDev| == ENUM_MAX && g <= ENUM_MAX
    ensures g <= r <= ENUM_MAX
    ensures r < ENUM_MAX ==> SlotOf(d, r, c) < d.maxDev[r]
    ensures forall h: Group :: g <= h < r ==> SlotOf(d, h, c) == d.maxDev[h]
    decreases ENUM_MAX - g
  {
    if g == ENUM_MAX || SlotOf(d, g, c) < d.maxDev[g] then g else TypeFrom(d, c, g + 1)
  }

  function TypeOf(d: Drives, c: Cookie): nat
    requires |d.maxDev| == ENUM_MAX
  {
    TypeFrom(d, c, 0)
  }

  /** A descriptor in some slot belongs to that group, at that slot. */
  lemma Located(d: Drives, g: Group, i: nat)
    requires Distinct(d) && i < d.maxDev[g] && d.dev(g, i) != 0
    ensures TypeOf(d, d.dev(g, i)) == g && SlotOf(d, g, d.dev(g, i)) == i
  {
    var c := d.dev(g, i);
    var h := TypeOf(d, c);
    assert SlotOf(d, g, c) < d.maxDev[g];
    assert h <= g;
    assert d.dev(h, SlotOf(d, h, c)) == c;
  }

  // ----- one step of the enumeration -----

  /** `enum_started` and `enum_ended` of the five groups. */
  datatype Flags = Flags(started: seq<bool>, ended: seq<bool>)

  predicate FlagsOk(f: Flags) {
    |f.started| == ENUM_MAX && |f.ended| == ENUM_MAX
  }

  datatype Got = Got(found: bool, more: bool, cookie: Cookie)

  /** `dev_stor_get` */
  function Get(d: Drives, g: Group, first: bool, cookie: Cookie): Got
    requires |d.maxDev| == ENUM_MAX
  {
    if first then
      var c := d.dev(g, 0);
      if c == 0 then Got(false, false, 0) else Got(d.active(c), false, c)
    else
      var i := SlotOf(d, g, cookie) + 1;
      if i >= d.maxDev[g] then Got(false, false, 0)
      else
        var c := d.dev(g, i);
        if c == 0 then Got(false, false, 0) else Got(d.active(c), i + 1 < d.maxDev[g], c)
  }

  datatype Step = Step(flags: Flags, found: bool, cookie: Cookie)

  function Finish(f: Flags, g: Group, got: Got): Step
    requires FlagsOk(f)
  {
    Step(f.(ended := f.ended[g := !got.more]), got.found, got.cookie)
  }

  /** `dev_enum_stor` */
  function EnumGroup(d: Drives, f: Flags, g: Group, cookie: Cookie): (s: Step)
    requires |d.maxDev| == ENUM_MAX && FlagsOk(f)
    ensures FlagsOk(s.flags)
  {
    if cookie == 0 then Finish(f.(started := f.started[g := true]), g, Get(d, g, true, cookie))
    else if f.ended[g] then Step(f, false, cookie)
    else if TypeOf(d, cookie) == g then Finish(f, g, Get(d, g, false, cookie))
    else if !f.started[g] then Finish(f.(started := f.started[g := true]), g, Get(d, g, true, cookie))
    else Finish(f, g, Got(false, false, cookie))
  }

  /** What one group is asked for, case by case.  A first request, which starts the group, hands back slot 0
      and ends the group at once; a request from slot `i` hands back slot `i + 1` and ends the group unless a
      slot follows; a started group is ended by a cookie of another one. */
  lemma GroupTable(d: Drives, f: Flags, g: Group, c: Cookie, i: nat)
    requires Distinct(d) && FlagsOk(f)
    ensures c == 0 || (!f.ended[g] && !f.started[g] && forall j: nat :: j < d.maxDev[g] ==> d.dev(g, j) != c) ==>
              var first := d.dev(g, 0);
              EnumGroup(d, f, g, c)
              == Step(Flags(f.started[g := true], f.ended[g := true]), first != 0 && d.active(first), first)
    ensures c != 0 && f.ended[g] ==> EnumGroup(d, f, g, c) == Step(f, false, c)
    ensures c != 0 && !f.ended[g] && f.started[g] && (forall j: nat :: j < d.maxDev[g] ==> d.dev(g, j) != c) ==>
              EnumGroup(d, f, g, c) == Step(Flags(f.started, f.ended[g := true]), false, c)
    ensures c != 0 && !f.ended[g] && i < d.maxDev[g] && d.dev(g, i) == c ==>
              var next := if i + 1 < d.maxDev[g] then d.dev(g, i + 1) else 0;
              EnumGroup(d, f, g, c)
              == Step(Flags(f.started, f.ended[g := next == 0 || i + 2 >= d.maxDev[g]]),
                      next != 0 && d.active(next), next)
  {
    if c != 0 && i < d.maxDev[g] && d.dev(g, i) == c {
      Located(d, g, i);
    }
  }

  /** `dev_enum_storage`, from group `g` on. */
  function EnumFrom(d: Drives, f: Flags, g: nat, cookie: Cookie): (s: Step)
    requires |d.maxDev| == ENUM_MAX && FlagsOk(f) && g <= ENUM_MAX
    ensures FlagsOk(s.flags)
    decreases ENUM_MAX - g
  {
    if g == ENUM_MAX then Step(f, false, cookie)
    else
      var s := EnumGroup(d, f, g, cookie);
      if s.found then s else EnumFrom(d, s.flags, g + 1, s.cookie)
  }

  const RESET: Flags := Flags([false, false, false, false, false], [false, false, false, false, false])

  datatype Call = Call(flags: Flags, cookie: Cookie)

  /** `API_dev_enum` */
  function DevEnum(d: Drives, f: Flags, cookie: Cookie): (r: Call)
    requires |d.maxDev| == ENUM_MAX && FlagsOk(f)
    ensures FlagsOk(r.flags)
  {
    if cookie == 0 && d.net != 0 then Call(RESET, d.net)
    else
      var s := EnumFrom(d, if cookie == 0 then RESET else f, 0, cookie);
      Call(s.flags, if s.found then s.cookie else 0)
  }

  // ----- the code -----

  datatype DeviceKind = NetDevice | StorageDevice(g: Group)

  /** The part of `struct device_info` that the enumeration works on. */
  class DeviceInfo {
    var cookie: Cookie
    var kind: DeviceKind
    var blockCount: nat
    var blockSize: nat

    /** The record describes the storage device that its cookie stands for, a device of group `g`. */
    ghost predicate Describes(d: Drives, g: Group)
      reads this
    {
      && kind == StorageDevice(g) && (exists i: nat :: cookie == d.dev(g, i)) && d.active(cookie)
      && blockCount == d.lba(cookie) && blockSize == d.blksz(cookie)
    }

    /** The record describes the network device. */
    predicate IsNet(d: Drives)
      reads this
    {
      kind == NetDevice && cookie == d.net
    }

    constructor ()
      ensures cookie == 0
    {
      cookie, kind, blockCount, blockSize := 0, NetDevice, 0, 0;
    }
  }

  /** The static `specs[]` table. */
  class Specs {
    const drives: Drives
    var started: seq<bool>
    var ended: seq<bool>

    ghost predicate Valid()
      reads this
    {
      |drives.maxDev| == ENUM_MAX && FlagsOk(State())
    }

    function State(): Flags
      reads this
    {
      Flags(started, ended)
    }

    constructor (d: Drives)
      requires |d.maxDev| == ENUM_MAX
      ensures Valid() && drives == d && State() == RESET
    {
      drives := d;
      started, ended := RESET.started, RESET.ended;
    }

    method DevStorGet(g: Group, first: bool, di: DeviceInfo) returns (found: bool, more: bool)
      requires Valid()
      modifies di
      ensures Got(found, more, di.cookie) == Get(drives, g, first, old(di.cookie))
      ensures found ==> di.Describes(drives, g)
    {
      found, more := false, false;
      if first {
        di.cookie := drives.dev(g, 0);
        if di.cookie == 0 {
          return;
        }
        found := true;
      } else {
        var i := 0;
        while i < drives.maxDev[g]
          invariant i <= drives.maxDev[g] && di.cookie == old(di.cookie) && !found && !more
          invariant SlotOf(drives, g, old(di.cookie)) == SlotFrom(drives, g, old(di.cookie), i)
        {
          if di.cookie == drives.dev(g, i) {
            i := i + 1;
            if i >= drives.maxDev[g] {
              di.cookie := 0;
              break;
            }
            di.cookie := drives.dev(g, i);
            if di.cookie == 0 {
              return;
            }
            found := true;
            if i + 1 < drives.maxDev[g] {
              more := true;
            }
            break;
          }
          i := i + 1;
        }
      }
      if found {
        di.kind := StorageDevice(g);
        if !drives.active(di.cookie) {
          found := false;
        } else {
          di.blockCount, di.blockSize := drives.lba(di.cookie), drives.blksz(di.cookie);
        }
      } else {
        di.cookie := 0;
      }
    }

    method DevStorType(dd: Cookie) returns (g: nat)
      requires Valid()
      ensures g == TypeOf(drives, dd)
    {
      g := 0;
      while g < ENUM_MAX
        invariant g <= ENUM_MAX && TypeOf(drives, dd) == TypeFrom(drives, dd, g)
      {
        var j := 0;
        while j < drives.maxDev[g]
          invariant j <= drives.maxDev[g] && SlotOf(drives, g, dd) == SlotFrom(drives, g, dd, j)
        {
          if dd == drives.dev(g, j) {
            return;
          }
          j := j + 1;
        }
        g := g + 1;
      }
    }

    method DevEnumStor(g: Group, di: DeviceInfo) returns (found: bool)
      requires Valid()
      modifies this, di
      ensures Valid() && Step(State(), found, di.cookie) == EnumGroup(drives, old(State()), g, old(di.cookie))
      ensures found ==> di.Describes(drives, g)
    {
      var more := false;
      if di.cookie == 0 {
        found, more := DevStorGet(g, true, di);
        started := started[g := true];
      } else {
        var group := DevStorType(di.cookie);
        if group == g {
          if ended[g] {
            return false;
          }
          found, more := DevStorGet(g, false, di);
        } else {
          if ended[g] {
            return false;
          }
          if !started[g] {
            started := started[g := true];
            found, more := DevStorGet(g, true, di);
          } else {
            found, more := false, false;
          }
        }
      }
      ended := ended[g := !more];
    }

    method DevEnumReset()
      requires Valid()
      modifies this
      ensures Valid() && State() == RESET
    {
      for i := 0 to ENUM_MAX
        invariant Valid() && forall j :: 0 <= j < i ==> !started[j] && !ended[j]
      {
        started := started[i := false];
        ended := ended[i := false];
      }
    }

    method DevEnumStorage(di: DeviceInfo) returns (found: bool)
      requires Valid()
      modifies this, di
      ensures Valid() && Step(State(), found, di.cookie) == EnumFrom(drives, old(State()), 0, old(di.cookie))
      ensures found ==> exists g: Group :: di.Describes(drives, g)
    {
      var g := 0;
      while g < ENUM_MAX
        invariant g <= ENUM_MAX && Valid()
        invariant EnumFrom(drives, State(), g, di.cookie) == EnumFrom(drives, old(State()), 0, old(di.cookie))
      {
        found := DevEnumStor(g, di);
        if found {
          assert di.Describes(drives, g);
          return true;
        }
        g := g + 1;
      }
      return false;
    }

    method ApiDevEnum(di: DeviceInfo)
      requires Valid()
      modifies this, di
      ensures Valid() && Call(State(), di.cookie) == DevEnum(drives, old(State()), old(di.cookie))
      ensures di.cookie != 0 ==> di.IsNet(drives) || exists g: Group :: di.Describes(drives, g)
    {
      if di.cookie == 0 {
        DevEnumReset();
        di.kind := NetDevice;
        di.cookie := drives.net;
        if di.cookie != 0 {
          return;
        }
      }
      var found := DevEnumStorage(di);
      if !found {
        di.cookie := 0;
      }
    }

    method DevStorIsValid(g: Group, dd: Cookie) returns (valid: bool)
      requires Valid()
      ensures valid <==> SlotOf(drives, g, dd) < drives.maxDev[g] && drives.active(dd)
    {
      var i := 0;
      while i < drives.maxDev[g]
        invariant i <= drives.maxDev[g]
        invariant drives.active(dd) ==> SlotOf(drives, g, dd) == SlotFrom(drives, g, dd, i)
      {
        if dd == drives.dev(g, i) {
          if drives.active(dd) {
            return true;
          }
        }
        i := i + 1;
      }
      return false;
    }

    method DevOpenStor(cookie: Cookie) returns (ok: bool)
      requires Valid()
      ensures ok == Opens(drives, cookie)
    {
      var g := DevStorType(cookie);
      if g == ENUM_MAX {
        return false;
      }
      ok := DevStorIsValid(g, cookie);
    }

    method DevStorIndex(dd: Cookie) returns (index: nat)
      requires Valid() && TypeOf(drives, dd) < ENUM_MAX
      ensures index == SlotOf(drives, TypeOf(drives, dd), dd)
    {
      var g := DevStorType(dd);
      index := 0;
      while index < drives.maxDev[g]
        invariant index <= drives.maxDev[g] && SlotOf(drives, g, dd) == SlotFrom(drives, g, dd, index)
      {
        if dd == drives.dev(g, index) {
          return;
        }
        index := index + 1;
      }
    }

    /** `dev_read_stor`: the device index handed to `block_read`, or none and 0 blocks read. */
    method DevReadStor(cookie: Cookie) returns (index: Option<nat>)
      requires Valid()
      ensures index == ReadIndex(drives, cookie)
    {
      var g := DevStorType(cookie);
      if g == ENUM_MAX {
        return None;
      }
      var valid := DevStorIsValid(g, cookie);
      if !valid || !drives.hasRead(cookie) {
        return None;
      }
      var i := DevStorIndex(cookie);
      return Some(i);
    }
  }

  /** `dev_open_stor` succeeds. */
  predicate Opens(d: Drives, c: Cookie)
    requires |d.maxDev| == ENUM_MAX
  {
    TypeOf(d, c) < ENUM_MAX && d.active(c)
  }

  function ReadIndex(d: Drives, c: Cookie): Option<nat>
    requires |d.maxDev| == ENUM_MAX
  {
    if Opens(d, c) && d.hasRead(c) then Some(SlotOf(d, TypeOf(d, c), c)) else None
  }

  // ----- termination from any state of the flags -----

  function Unended(ended: seq<bool>): nat {
    if ended == [] then 0 else (if ended[0] then 0 else 1) + Unended(ended[1..])
  }

  /** Slots from a descriptor to the end of its group. */
  function Remaining(d: Drives, c: Cookie): nat
    requires |d.maxDev| == ENUM_MAX
  {
    var g := TypeOf(d, c);
    if g == ENUM_MAX then 0 else d.maxDev[g] - SlotOf(d, g, c)
  }

  /** Ended groups stay ended. */
  predicate Grows(e: seq<bool>, e': seq<bool>) {
    |e| == |e'| && forall h :: 0 <= h < |e| && e[h] ==> e'[h]
  }

  lemma {:induction false} FewerUnended(e: seq<bool>, e': seq<bool>)
    requires Grows(e, e')
    ensures Unended(e') <= Unended(e)
    ensures e != e' ==> Unended(e') < Unended(e)
  {
    if e != [] {
      assert Grows(e[1..], e'[1..]) by {
        assert forall h :: 0 <= h < |e| - 1 ==> e[1..][h] == e[h + 1] && e'[1..][h] == e'[h + 1];
      }
      FewerUnended(e[1..], e'[1..]);
      assert e == [e[0]] + e[1..] && e' == [e'[0]] + e'[1..];
    }
  }

  lemma GroupGrows(d: Drives, f: Flags, g: Group, c: Cookie)
    requires |d.maxDev| == ENUM_MAX && FlagsOk(f)
    ensures Grows(f.ended, EnumGroup(d, f, g, c).flags.ended)
  {}

  lemma {:induction false} EnumGrows(d: Drives, f: Flags, g: nat, c: Cookie)
    requires |d.maxDev| == ENUM_MAX && FlagsOk(f) && g <= ENUM_MAX
    ensures Grows(f.ended, EnumFrom(d, f, g, c).flags.ended)
    decreases ENUM_MAX - g
  {
    if g < ENUM_MAX {
      GroupGrows(d, f, g, c);
      var s := EnumGroup(d, f, g, c);
      EnumGrows(d, s.flags, g + 1, s.cookie);
    }
  }

  /** A group that does not end now gives the successor of the cookie, present or not, or nothing. */
  lemma GroupContinues(d: Drives, f: Flags, g: Group, c: Cookie)
    requires Distinct(d) && FlagsOk(f) && c != 0 && EnumGroup(d, f, g, c).flags.ended == f.ended
    ensures var s := EnumGroup(d, f, g, c);
            && s.cookie != 0
            && (s.found ==> TypeOf(d, c) == g && Remaining(d, s.cookie) < Remaining(d, c))
            && (s.cookie == c || TypeOf(d, s.cookie) == g)
  {
    if !f.ended[g] {
      assert TypeOf(d, c) == g;
      Located(d, g, SlotOf(d, g, c) + 1);
    }
  }

  /** A device that is found leaves fewer unended groups, unless it is the successor, in its own
      group, of the device the search started from. */
  lemma {:induction false} EnumDecreases(d: Drives, f: Flags, g: nat, c: Cookie)
    requires Distinct(d) && FlagsOk(f) && g <= ENUM_MAX && c != 0
    ensures var s := EnumFrom(d, f, g, c);
            s.found ==>
              || Unended(s.flags.ended) < Unended(f.ended)
              || (s.flags.ended == f.ended && g <= TypeOf(d, c) < ENUM_MAX && s.cookie != 0
                  && Remaining(d, s.cookie) < Remaining(d, c))
    decreases ENUM_MAX - g
  {
    if g < ENUM_MAX {
      var s := EnumGroup(d, f, g, c);
      GroupGrows(d, f, g, c);
      FewerUnended(f.ended, s.flags.ended);
      if s.flags.ended == f.ended {
        GroupContinues(d, f, g, c);
        if !s.found {
          EnumDecreases(d, s.flags, g + 1, s.cookie);
        }
      } else if !s.found {
        EnumGrows(d, s.flags, g + 1, s.cookie);
        FewerUnended(s.flags.ended, EnumFrom(d, s.flags, g + 1, s.cookie).flags.ended);
      }
    }
  }

  /** Between resets an ended group stays ended, whatever the flags were, and feeding the returned
      cookie back either ends with NULL or decreases (unended groups, slots left in the group). */
  lemma CallDecreases(d: Drives, f: Flags, c: Cookie)
    requires Distinct(d) && FlagsOk(f) && c != 0
    ensures var r := DevEnum(d, f, c);
            && Grows(f.ended, r.flags.ended)
            && (r.cookie != 0 ==>
                  || Unended(r.flags.ended) < Unended(f.ended)
                  || (Unended(r.flags.ended) == Unended(f.ended) && Remaining(d, r.cookie) < Remaining(d, c)))
  {
    EnumGrows(d, f, 0, c);
    EnumDecreases(d, f, 0, c);
  }

  /** The cookies that a client gets by feeding each one back, until NULL. */
  ghost function Continue(d: Drives, f: Flags, c: Cookie): seq<Cookie>
    requires Distinct(d) && FlagsOk(f) && c != 0
    decreases Unended(f.ended), Remaining(d, c)
  {
    var r := DevEnum(d, f, c);
    CallDecreases(d, f, c);
    if r.cookie == 0 then [] else [r.cookie] + Continue(d, r.flags, r.cookie)
  }

  ghost function FreshRun(d: Drives, f: Flags): seq<Cookie>
    requires Distinct(d) && FlagsOk(f)
  {
    var r := DevEnum(d, f, 0);
    if r.cookie == 0 then [] else [r.cookie] + Continue(d, r.flags, r.cookie)
  }

  /** A client's loop over `API_dev_enum`, from NULL and any flags. */
  method Enumerate(specs: Specs, di: DeviceInfo) returns (cookies: seq<Cookie>)
    requires specs.Valid() && Distinct(specs.drives) && di.cookie == 0
    modifies specs, di
    ensures specs.Valid() && di.cookie == 0
    ensures cookies == FreshRun(specs.drives, old(specs.State()))
  {
    cookies := [];
    specs.ApiDevEnum(di);
    ghost var all := FreshRun(specs.drives, old(specs.State()));
    while di.cookie != 0
      invariant specs.Valid()
      invariant di.cookie == 0 ==> cookies == all
      invariant di.cookie != 0 ==> cookies + [di.cookie] + Continue(specs.drives, specs.State(), di.cookie) == all
      decreases di.cookie != 0, Unended(specs.ended), if di.cookie == 0 then 0 else Remaining(specs.drives, di.cookie)
    {
      cookies := cookies + [di.cookie];
      CallDecreases(specs.drives, specs.State(), di.cookie);
      specs.ApiDevEnum(di);
    }
  }

  // ----- what a fresh run returns -----

  /** Groups below `k` are ended, the others untouched. */
  predicate FreshFrom(f: Flags, k: nat) {
    && FlagsOk(f)
    && (forall h :: 0 <= h < ENUM_MAX && h < k ==> f.ended[h])
    && (forall h :: k <= h < ENUM_MAX ==> !f.started[h] && !f.ended[h])
  }

  predicate FirstPresent(d: Drives, g: Group) {
    d.dev(g, 0) != 0 && d.active(d.dev(g, 0))
  }

  /** Slot 0 of every group from `k` on whose slot 0 holds a present device. */
  function FirstSlots(d: Drives, k: nat): seq<Cookie>
    requires k <= ENUM_MAX
    decreases ENUM_MAX - k
  {
    if k == ENUM_MAX then []
    else (if FirstPresent(d, k) then [d.dev(k, 0)] else []) + FirstSlots(d, k + 1)
  }

  /** The cookie does not belong to group `k` or a later one. */
  predicate Before(d: Drives, c: Cookie, k: nat)
    requires |d.maxDev| == ENUM_MAX
  {
    c == 0 || TypeOf(d, c) < k || TypeOf(d, c) == ENUM_MAX
  }

  lemma {:induction false} SkipEnded(d: Drives, f: Flags, g: nat, k: nat, c: Cookie)
    requires Distinct(d) && FreshFrom(f, k) && g <= k <= ENUM_MAX && c != 0
    ensures EnumFrom(d, f, g, c) == EnumFrom(d, f, k, c)
    decreases k - g
  {
    if g < k {
      SkipEnded(d, f, g + 1, k, c);
    }
  }

  /** An untouched group is asked for its slot 0 and ends at once. */
  lemma GroupFresh(d: Drives, f: Flags, k: Group, c: Cookie)
    requires DrivesOk(d) && FreshFrom(f, k) && Before(d, c, k)
    ensures var s := EnumGroup(d, f, k, c);
            FreshFrom(s.flags, k + 1) && s.cookie == d.dev(k, 0) && s.found == FirstPresent(d, k)
    ensures Before(d, d.dev(k, 0), k + 1)
  {
    if d.dev(k, 0) != 0 {
      Located(d, k, 0);
    }
  }

  /** From untouched groups on, the search stops at the first group whose slot 0 is present. */
  lemma {:induction false} FreshSearch(d: Drives, f: Flags, k: nat, c: Cookie) returns (h: nat)
    requires DrivesOk(d) && FreshFrom(f, k) && k <= ENUM_MAX && Before(d, c, k)
    ensures k <= h <= ENUM_MAX
    ensures var s := EnumFrom(d, f, k, c);
            && s.found == (h < ENUM_MAX)
            && (s.found ==> FirstPresent(d, h) && s.cookie == d.dev(h, 0) && FreshFrom(s.flags, h + 1))
    ensures FirstSlots(d, k) == if h < ENUM_MAX then [d.dev(h, 0)] + FirstSlots(d, h + 1) else []
    decreases ENUM_MAX - k
  {
    if k == ENUM_MAX {
      h := k;
    } else {
      var s := FreshStep(d, f, k, c);
      if s.found {
        h := k;
      } else {
        h := FreshSearch(d, s.flags, k + 1, s.cookie);
      }
    }
  }

  lemma FreshStep(d: Drives, f: Flags, k: Group, c: Cookie) returns (s: Step)
    requires DrivesOk(d) && FreshFrom(f, k) && Before(d, c, k)
    ensures FreshFrom(s.flags, k + 1) && Before(d, s.cookie, k + 1)
    ensures s.cookie == d.dev(k, 0) && s.found == FirstPresent(d, k)
    ensures EnumFrom(d, f, k, c) == if s.found then s else EnumFrom(d, s.flags, k + 1, s.cookie)
  {
    s := EnumGroup(d, f, k, c);
    GroupFresh(d, f, k, c);
  }

  lemma {:induction false} ContinueFresh(d: Drives, f: Flags, k: nat, c: Cookie)
    requires DrivesOk(d) && FreshFrom(f, k) && k <= ENUM_MAX && c != 0 && Before(d, c, k)
    ensures Continue(d, f, c) == FirstSlots(d, k)
    decreases ENUM_MAX - k
  {
    SkipEnded(d, f, 0, k, c);
    var h := FreshSearch(d, f, k, c);
    if h < ENUM_MAX {
      Located(d, h, 0);
      ContinueFresh(d, EnumFrom(d, f, k, c).flags, h + 1, d.dev(h, 0));
    }
  }

  /** The run after a first call that gave `r`. */
  ghost function RunFrom(d: Drives, r: Call): seq<Cookie>
    requires Distinct(d) && FlagsOk(r.flags)
  {
    if r.cookie == 0 then [] else [r.cookie] + Continue(d, r.flags, r.cookie)
  }

  /** A first search through untouched groups. */
  lemma FreshStart(d: Drives, f: Flags, k: nat, c: Cookie) returns (r: Call)
    requires DrivesOk(d) && FreshFrom(f, k) && k <= ENUM_MAX && Before(d, c, k)
    ensures var s := EnumFrom(d, f, k, c); r == Call(s.flags, if s.found then s.cookie else 0)
    ensures FlagsOk(r.flags) && RunFrom(d, r) == FirstSlots(d, k)
  {
    var s := EnumFrom(d, f, k, c);
    var h := FreshSearch(d, f, k, c);
    r := Call(s.flags, if s.found then s.cookie else 0);
    if h < ENUM_MAX {
      Located(d, h, 0);
      ContinueFresh(d, s.flags, h + 1, d.dev(h, 0));
    }
  }

  /** A fresh enumeration returns the network device, if there is one, and then slot 0 of every group
      where it is present, in group order; no later slot is ever returned. */
  lemma FreshRunIsFirstSlots(d: Drives, f: Flags)
    requires DrivesOk(d) && FlagsOk(f)
    ensures FreshRun(d, f) == (if d.net != 0 then [d.net] else []) + FirstSlots(d, 0)
  {
    var reset, first: nat, nothing: Cookie := RESET, 0, 0;
    if d.net != 0 {
      ContinueFresh(d, reset, first, d.net);
    } else {
      var r := FreshStart(d, reset, first, nothing);
      assert DevEnum(d, f, nothing) == r;
    }
  }

  // ----- what the run misses, and what its cookies are good for -----

  /** A present device in slot `i` of group `g`. */
  predicate Present(d: Drives, g: Group, i: nat)
    requires |d.maxDev| == ENUM_MAX
  {
    i < d.maxDev[g] && d.dev(g, i) != 0 && d.active(d.dev(g, i))
  }

  lemma {:induction false} FirstSlotsMember(d: Drives, k: nat, c: Cookie)
    requires k <= ENUM_MAX
    ensures c in FirstSlots(d, k) <==> exists g: Group :: k <= g && FirstPresent(d, g) && c == d.dev(g, 0)
    decreases ENUM_MAX - k
  {
    if k < ENUM_MAX {
      FirstSlotsMember(d, k + 1, c);
    }
  }

  lemma {:induction false} FirstSlotsDistinct(d: Drives, k: nat)
    requires DrivesOk(d) && k <= ENUM_MAX
    ensures forall i, j :: 0 <= i < j < |FirstSlots(d, k)| ==> FirstSlots(d, k)[i] != FirstSlots(d, k)[j]
    decreases ENUM_MAX - k
  {
    if k < ENUM_MAX {
      FirstSlotsDistinct(d, k + 1);
      FirstSlotsMember(d, k + 1, d.dev(k, 0));
      if FirstPresent(d, k) {
        assert d.dev(k, 0) !in FirstSlots(d, k + 1);
      }
    }
  }

  lemma FreshRunDistinct(d: Drives, f: Flags)
    requires DrivesOk(d) && FlagsOk(f)
    ensures forall i, j :: 0 <= i < j < |FreshRun(d, f)| ==> FreshRun(d, f)[i] != FreshRun(d, f)[j]
  {
    var run, slots := FreshRun(d, f), FirstSlots(d, 0);
    assert run == (if d.net != 0 then [d.net] else []) + slots by { FreshRunIsFirstSlots(d, f); }
    assert forall i, j :: 0 <= i < j < |slots| ==> slots[i] != slots[j] by { FirstSlotsDistinct(d, 0); }
    assert d.net != 0 ==> d.net !in slots by { FirstSlotsMember(d, 0, d.net); }
    assert d.net == 0 ==> run == slots;
  }

  /** The run visits every present device, as the comment on `dev_enum_stor` would have it, if and only
      if no present device sits in a slot other than 0. */
  lemma VisitsAllIff(d: Drives, f: Flags)
    requires DrivesOk(d) && FlagsOk(f)
    ensures (forall g: Group, i: nat :: Present(d, g, i) ==> d.dev(g, i) in FreshRun(d, f)) <==>
            (forall g: Group, i: nat :: Present(d, g, i) ==> i == 0)
  {
    FreshRunIsFirstSlots(d, f);
    forall g: Group, i: nat | Present(d, g, i) ensures d.dev(g, i) in FreshRun(d, f) <==> i == 0 {
      FirstSlotsMember(d, 0, d.dev(g, i));
    }
  }

  function TwoDisks(): Drives {
    Drives([2, 0, 0, 0, 0], (g, i) => if g == 0 && i < 2 then i + 1 else 0, _ => true, _ => true,
           _ => 1, _ => 512, 0)
  }

  /** Two present IDE devices: the second is never returned. */
  lemma SecondDeviceMissed(f: Flags)
    requires FlagsOk(f)
    ensures var d := TwoDisks();
            DrivesOk(d) && Present(d, 0, 1) && FreshRun(d, f) == [d.dev(0, 0)]
  {
    var d := TwoDisks();
    FreshRunIsFirstSlots(d, f);
    assert FirstSlots(d, 4) == [] && FirstSlots(d, 3) == [] && FirstSlots(d, 2) == [] && FirstSlots(d, 1) == [];
  }

  /** A cookie opens exactly when it is a present device, and is read with the index of its one slot. */
  lemma OpensExactly(d: Drives, c: Cookie)
    requires Distinct(d) && c != 0
    ensures Opens(d, c) <==> exists g: Group, i: nat :: Present(d, g, i) && d.dev(g, i) == c
    ensures forall g: Group, i: nat :: Present(d, g, i) && d.dev(g, i) == c ==>
              ReadIndex(d, c) == if d.hasRead(c) then Some(i) else None
    ensures !Opens(d, c) ==> ReadIndex(d, c) == None
  {
    forall g: Group, i: nat | Present(d, g, i) && d.dev(g, i) == c ensures TypeOf(d, c) == g && SlotOf(d, g, c) == i {
      Located(d, g, i);
    }
    if Opens(d, c) {
      var g := TypeOf(d, c);
      assert Present(d, g, SlotOf(d, g, c));
    }
  }

  lemma SlotOpens(d: Drives, g: Group, i: nat)
    requires Distinct(d) && i < d.maxDev[g] && d.dev(g, i) != 0 && d.active(d.dev(g, i))
    ensures Opens(d, d.dev(g, i))
  {
    Located(d, g, i);
  }

  lemma GetOpens(d: Drives, g: Group, first: bool, c: Cookie)
    requires DrivesOk(d)
    ensures var got := Get(d, g, first, c); got.found ==> Opens(d, got.cookie)
  {
    var i := if first then 0 else SlotOf(d, g, c) + 1;
    if Get(d, g, first, c).found {
      SlotOpens(d, g, i);
    }
  }

  lemma GroupOpens(d: Drives, f: Flags, g: Group, c: Cookie)
    requires DrivesOk(d) && FlagsOk(f)
    ensures var s := EnumGroup(d, f, g, c); s.found ==> Opens(d, s.cookie)
  {
    if EnumGroup(d, f, g, c).found {
      var first := GroupFinds(d, f, g, c);
      GetOpens(d, g, first, c);
    }
  }

  lemma GroupFinds(d: Drives, f: Flags, g: Group, c: Cookie) returns (first: bool)
    requires |d.maxDev| == ENUM_MAX && FlagsOk(f) && EnumGroup(d, f, g, c).found
    ensures Get(d, g, first, c).found && Get(d, g, first, c).cookie == EnumGroup(d, f, g, c).cookie
  {
    first := c == 0 || TypeOf(d, c) != g;
  }

  lemma {:induction false} SearchOpens(d: Drives, f: Flags, g: nat, c: Cookie)
    requires DrivesOk(d) && FlagsOk(f) && g <= ENUM_MAX
    ensures var s := EnumFrom(d, f, g, c); s.found ==> Opens(d, s.cookie)
    decreases ENUM_MAX - g
  {
    if g < ENUM_MAX {
      GroupOpens(d, f, g, c);
      var s := EnumGroup(d, f, g, c);
      if !s.found {
        SearchOpens(d, s.flags, g + 1, s.cookie);
      }
    }
  }

  /** Whatever the flags and the cookie fed in: a call returns NULL, the network device, or a storage
      device that opens. */
  lemma EnumeratedOpens(d: Drives, f: Flags, c: Cookie)
    requires DrivesOk(d) && FlagsOk(f)
    ensures var r := DevEnum(d, f, c); r.cookie == 0 || r.cookie == d.net || Opens(d, r.cookie)
  {
    SearchOpens(d, f, 0, c);
    SearchOpens(d, RESET, 0, 0);
  }
}
