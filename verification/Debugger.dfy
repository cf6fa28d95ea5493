/**
  The debugger session of common/cmd_bedbug.c: the miniature main loop entered at a breakpoint, and
  the `step`, `next` and `continue` commands.

  What is typed at the prompts is a parameter, and with every line what the shell made of it on that
  occasion: the commands it ran, what other commands returned, the memory that `step` and `next` found.
  The CPU-specific `set` and `clear` hooks are calls recorded in order.
 */
module Debugger {
  import opened Wrappers
  import opened Words
  import opened Tables
  import opened Branch

  /** `Other` is any command that leaves `bug_ctx` alone, with what it returned and whether it may be
      repeated; a part of a line that is no command counts as one that failed.  `CtrlC` ends the line. */
  datatype Command =
    | Step(mem: Word -> Word)
    | Next(mem: Word -> Word)
    | Continue
    | Other(code: int, repeatable: bool)
    | CtrlC

  /** What `readline` delivers: -1, or a line (empty when only Return was pressed), and the commands that
      `run_command` then runs. */
  datatype Input = Interrupt | Typed(text: string, commands: seq<Command>)

  datatype Hook = Set(bp: int, addr: Word) | Clear(bp: int)

  datatype Run = Run(line: string, code: int)

  /** `bug_ctx`, the static `lastcommand`, and the calls made to hooks and to `run_command`. */
  datatype Session = Session(stopped: bool, regs: Option<Regs>, bp: int, last: string,
                             hooks: seq<Hook>, runs: seq<Run>)

  // ----- commands -----

  datatype Outcome = Outcome(s: Session, code: int)

  function Advance(t: Table, s: Session, mem: Word -> Word, over: bool): Outcome {
    if !s.stopped || s.regs.None? then Outcome(s, 1)
    else match NextAddress(t, mem, s.regs.value, over)
      case None => Outcome(s, 1)
      case Some(addr) => Outcome(s.(hooks := s.hooks + [Set(s.bp, addr)], stopped := false), 0)
  }

  function Execute(t: Table, s: Session, c: Command): Outcome {
    match c
    case Step(mem) => Advance(t, s, mem, false)
    case Next(mem) => Advance(t, s, mem, true)
    case Continue => if s.stopped then Outcome(s.(stopped := false), 0) else Outcome(s, 1)
    case Other(code, _) => Outcome(s, code)
    case CtrlC => Outcome(s, -1)
  }

  predicate Repeatable(c: Command) {
    match c
    case Step(_) => true
    case Next(_) => true
    case Continue => false
    case Other(_, repeatable) => repeatable
    case CtrlC => false
  }

  /** The commands of one line: all of them run, up to a Ctrl-C; the code is -1 if there was a Ctrl-C,
      one failed or there was none, else 1 or 0 as the line may be repeated or not. */
  function ExecuteAll(t: Table, s: Session, cs: seq<Command>, failed: bool, repeatable: bool): Outcome
    decreases |cs|
  {
    if cs == [] then Outcome(s, if failed then -1 else if repeatable then 1 else 0)
    else if cs[0].CtrlC? then Outcome(s, -1)
    else
      var o := Execute(t, s, cs[0]);
      ExecuteAll(t, o.s, cs[1..], failed || o.code != 0, repeatable && Repeatable(cs[0]))
  }

  /** `run_command`, recorded; an empty line runs nothing. */
  function RunLine(t: Table, s: Session, line: string, commands: seq<Command>): Outcome {
    var cs := if line == [] then [] else commands;
    var o := ExecuteAll(t, s, cs, cs == [], true);
    Outcome(o.s.(runs := o.s.runs + [Run(line, o.code)]), o.code)
  }

  // ----- the main loop -----

  /** The line that an input runs. */
  function LineOf(s: Session, input: Input): string
    requires input.Typed?
  {
    if input.text != [] then input.text else s.last
  }

  /** One turn of the loop; `rc` is the code of the previous turn. */
  function Turn(t: Table, s: Session, rc: int, input: Input): Outcome {
    match input
    case Interrupt => Outcome(if rc <= 0 then s.(last := []) else s, rc)
    case Typed(_, commands) =>
      var line := LineOf(s, input);
      var o := RunLine(t, s.(last := line), line, commands);
      Outcome(if o.code <= 0 then o.s.(last := []) else o.s, o.code)
  }

  function Loop(t: Table, s: Session, rc: int, inputs: seq<Input>): Session
    decreases |inputs|
  {
    if !s.stopped then s.(regs := None, bp := 0)
    else if inputs == [] then s
    else
      var o := Turn(t, s, rc, inputs[0]);
      Loop(t, o.s, o.code, inputs[1..])
  }

  /** A breakpoint: the interrupt routine records its number and enters the loop. */
  function Enter(s: Session, bp: int, frame: Regs): Session {
    s.(bp := bp, hooks := s.hooks + [Clear(bp)], stopped := true, regs := Some(frame))
  }

  function Trap(t: Table, s: Session, bp: int, frame: Regs, inputs: seq<Input>): Session {
    Loop(t, Enter(s, bp, frame), 0, inputs)
  }

  /** The global debugger context, updated in place by the commands and the loop. */
  class BugContext {
    var stopped: bool
    var regs: Option<Regs>
    var currentBp: int
    var lastcommand: string
    var hooks: seq<Hook>
    var runs: seq<Run>

    constructor ()
      ensures State() == INITIAL
    {
      stopped, regs, currentBp, lastcommand, hooks, runs := false, None, 0, [], [], [];
    }

    function State(): Session
      reads this
    {
      Session(stopped, regs, currentBp, lastcommand, hooks, runs)
    }

    /** `do_bedbug_step` and `do_bedbug_next` */
    method DoAdvance(t: Table, mem: Word -> Word, over: bool) returns (code: int)
      requires TableOk(t) && BranchRows(t)
      modifies this
      ensures Outcome(State(), code) == Advance(t, old(State()), mem, over)
    {
      if !stopped {
        return 1;
      }
      var addr := FindNextAddress(t, mem, over, regs);
      if addr.None? {
        return 1;
      }
      hooks := hooks + [Set(currentBp, addr.value)];
      stopped := false;
      return 0;
    }

    method DoContinue() returns (code: int)
      modifies this
      ensures State() == old(State()).(stopped := false) && code == if old(stopped) then 0 else 1
    {
      if !stopped {
        return 1;
      }
      stopped := false;
      return 0;
    }

    method RunCommand(t: Table, line: string, commands: seq<Command>) returns (code: int)
      requires TableOk(t) && BranchRows(t)
      modifies this
      ensures Outcome(State(), code) == RunLine(t, old(State()), line, commands)
    {
      var cs := if line == [] then [] else commands;
      var failed, repeatable, i := |cs| == 0, true, 0;
      ghost var result := ExecuteAll(t, State(), cs, failed, repeatable);
      while i < |cs| && !cs[i].CtrlC?
        invariant 0 <= i <= |cs|
        invariant ExecuteAll(t, State(), cs[i..], failed, repeatable) == result
        invariant runs == old(runs)
      {
        assert cs[i..][1..] == cs[i + 1..];
        var rc := 0;
        match cs[i] {
          case Step(mem) => rc := DoAdvance(t, mem, false);
          case Next(mem) => rc := DoAdvance(t, mem, true);
          case Continue => rc := DoContinue();
          case Other(c, _) => rc := c;
        }
        failed, repeatable := failed || rc != 0, repeatable && Repeatable(cs[i]);
        i := i + 1;
      }
      code := if i < |cs| || failed then -1 else if repeatable then 1 else 0;
      runs := runs + [Run(line, code)];
    }

    /** `bedbug_main_loop`, after the interrupt routine has set the breakpoint number. */
    method MainLoop(t: Table, bp: int, frame: Regs, inputs: seq<Input>)
      requires TableOk(t) && BranchRows(t)
      modifies this
      ensures State() == Trap(t, old(State()), bp, frame, inputs)
    {
      currentBp := bp;
      hooks := hooks + [Clear(currentBp)];
      stopped := true;
      regs := Some(frame);
      ghost var result := Trap(t, old(State()), bp, frame, inputs);
      var rc, k := 0, 0;
      while stopped && k < |inputs|
        invariant 0 <= k <= |inputs|
        invariant Loop(t, State(), rc, inputs[k..]) == result
        decreases |inputs| - k
      {
        assert inputs[k..][1..] == inputs[k + 1..];
        match inputs[k] {
          case Interrupt =>
          case Typed(text, commands) =>
            if text != [] {
              lastcommand := text;
            }
            rc := RunCommand(t, lastcommand, commands);
        }
        if rc <= 0 {
          lastcommand := [];
        }
        k := k + 1;
      }
      if !stopped {
        regs := None;
        currentBp := 0;
      }
    }
  }

  // ----- what every run keeps -----

  /** A nonempty `lastcommand` is the line that the debugger ran last, and that run returned a
      positive code. */
  predicate Remembered(s: Session) {
    s.last != [] ==> s.runs != [] && s.runs[|s.runs| - 1].line == s.last && s.runs[|s.runs| - 1].code > 0
  }

  /** Outside the loop. */
  predicate AtRest(s: Session) {
    !s.stopped && s.regs.None? && s.bp == 0 && Remembered(s)
  }

  /** At a prompt of the session that was entered at breakpoint `bp` with registers `frame`. */
  predicate AtPrompt(s: Session, bp: int, frame: Regs) {
    s.stopped && s.regs == Some(frame) && s.bp == bp && Remembered(s)
  }

  /** Every command of a line that finds the session stopped finds the trapped registers there. */
  ghost predicate SeesFrame(t: Table, s: Session, cs: seq<Command>, frame: Regs)
    decreases |cs|
  {
    cs == [] || ((s.stopped ==> s.regs == Some(frame)) && SeesFrame(t, Execute(t, s, cs[0]).s, cs[1..], frame))
  }

  /** Command `c` sets breakpoint `bp` from registers `frame`. */
  ghost predicate Sets(t: Table, bp: int, frame: Regs, c: Command, before: seq<Hook>, after: seq<Hook>) {
    (c.Step? || c.Next?)
    && NextAddress(t, c.mem, frame, c.Next?).Some?
    && after == before + [Set(bp, NextAddress(t, c.mem, frame, c.Next?).value)]
  }

  /** The hooks called by commands `cs`: none, or one breakpoint with the session's own number at the
      address that one of the commands predicts from the session's own registers. */
  ghost predicate AddedHooks(t: Table, bp: int, frame: Regs, cs: seq<Command>, before: seq<Hook>, after: seq<Hook>) {
    after == before || exists i :: 0 <= i < |cs| && Sets(t, bp, frame, cs[i], before, after)
  }

  lemma AddedByMore(t: Table, bp: int, frame: Regs, cs: seq<Command>, ds: seq<Command>,
                    before: seq<Hook>, after: seq<Hook>)
    requires AddedHooks(t, bp, frame, cs, before, after) || AddedHooks(t, bp, frame, ds, before, after)
    ensures AddedHooks(t, bp, frame, cs + ds, before, after)
  {
    var all := cs + ds;
    if i :| 0 <= i < |cs| && Sets(t, bp, frame, cs[i], before, after) {
      assert all[i] == cs[i];
    } else if i :| 0 <= i < |ds| && Sets(t, bp, frame, ds[i], before, after) {
      assert all[|cs| + i] == ds[i];
    }
  }

  /** Any list of commands, whatever they return: outside a session it changes nothing; inside, it may
      end the session and set one breakpoint. */
  lemma {:induction false} LineKeeps(t: Table, s: Session, cs: seq<Command>, failed: bool, repeatable: bool,
                                     frame: Regs)
    requires s.stopped ==> s.regs == Some(frame)
    ensures var o := ExecuteAll(t, s, cs, failed, repeatable);
            && o.s.regs == s.regs && o.s.bp == s.bp && o.s.last == s.last && o.s.runs == s.runs
            && (o.s.stopped ==> s.stopped && o.s.hooks == s.hooks)
            && (if s.stopped then AddedHooks(t, s.bp, frame, cs, s.hooks, o.s.hooks) else o.s == s)
    ensures SeesFrame(t, s, cs, frame)
    decreases |cs|
  {
    if cs != [] {
      var o, rest := Execute(t, s, cs[0]), cs[1..];
      LineKeeps(t, o.s, rest, failed || o.code != 0, repeatable && Repeatable(cs[0]), frame);
      FirstCommand(t, s, cs[0], frame);
      if s.stopped && !cs[0].CtrlC? {
        var r := ExecuteAll(t, o.s, rest, failed || o.code != 0, repeatable && Repeatable(cs[0]));
        assert cs == [cs[0]] + rest;
        AddedByMore(t, s.bp, frame, [cs[0]], rest, s.hooks, r.s.hooks);
      }
    }
  }

  lemma FirstCommand(t: Table, s: Session, c: Command, frame: Regs)
    requires s.stopped ==> s.regs == Some(frame)
    ensures var o := Execute(t, s, c);
            && o.s.regs == s.regs && o.s.bp == s.bp && o.s.last == s.last && o.s.runs == s.runs
            && (o.s.stopped ==> o.s == s) && (!s.stopped ==> o.s == s)
            && AddedHooks(t, s.bp, frame, [c], s.hooks, o.s.hooks)
  {
    var o := Execute(t, s, c);
    if o.s.hooks != s.hooks {
      assert Sets(t, s.bp, frame, [c][0], s.hooks, o.s.hooks);
    }
  }

  /** All the commands that a list of inputs runs. */
  function AllCommands(inputs: seq<Input>): seq<Command> {
    if inputs == [] then []
    else (if inputs[0].Typed? then inputs[0].commands else []) + AllCommands(inputs[1..])
  }

  /** All the prompts that a session reaches, and all the commands run there. */
  ghost predicate EveryPrompt(t: Table, s: Session, rc: int, inputs: seq<Input>, bp: int, frame: Regs)
    decreases |inputs|
  {
    s.stopped ==>
      && AtPrompt(s, bp, frame)
      && (inputs != [] ==>
            && (inputs[0].Typed? ==> SeesFrame(t, s, inputs[0].commands, frame))
            && EveryPrompt(t, Turn(t, s, rc, inputs[0]).s, Turn(t, s, rc, inputs[0]).code, inputs[1..], bp, frame))
  }

  lemma TurnKeeps(t: Table, s: Session, rc: int, input: Input, bp: int, frame: Regs)
    requires AtPrompt(s, bp, frame)
    ensures var o := Turn(t, s, rc, input);
            && o.s.regs == s.regs && o.s.bp == s.bp && Remembered(o.s)
            && (o.s.stopped ==> o.s.hooks == s.hooks)
            && AddedHooks(t, bp, frame, if input.Typed? then input.commands else [], s.hooks, o.s.hooks)
    ensures input.Typed? ==> SeesFrame(t, s, input.commands, frame)
  {
    if input.Typed? {
      var line := LineOf(s, input);
      var cs := if line == [] then [] else input.commands;
      LineKeeps(t, s.(last := line), cs, cs == [], true, frame);
      LineKeeps(t, s, input.commands, false, true, frame);
    }
  }

  /** A whole session: what holds at each prompt, and how it is left. */
  lemma {:induction false} LoopKeeps(t: Table, s: Session, rc: int, inputs: seq<Input>, bp: int, frame: Regs)
    requires if s.stopped then AtPrompt(s, bp, frame) else Remembered(s)
    ensures EveryPrompt(t, s, rc, inputs, bp, frame)
    ensures var r := Loop(t, s, rc, inputs);
            && (if r.stopped then AtPrompt(r, bp, frame) && r.hooks == s.hooks else AtRest(r))
            && (if s.stopped then AddedHooks(t, bp, frame, AllCommands(inputs), s.hooks, r.hooks)
                else r.hooks == s.hooks)
    decreases |inputs|
  {
    if s.stopped && inputs != [] {
      var o, rest := Turn(t, s, rc, inputs[0]), inputs[1..];
      TurnKeeps(t, s, rc, inputs[0], bp, frame);
      LoopKeeps(t, o.s, o.code, rest, bp, frame);
      AddedByMore(t, bp, frame, if inputs[0].Typed? then inputs[0].commands else [], AllCommands(rest),
                  s.hooks, Loop(t, o.s, o.code, rest).hooks);
    }
  }

  // ----- how a session is left -----

  /** At a stop with registers `frame`, command `c` lets the program go on. */
  predicate Releases(t: Table, frame: Regs, c: Command) {
    c.Continue? || ((c.Step? || c.Next?) && NextAddress(t, c.mem, frame, c.Next?).Some?)
  }

  /** Command `i` of a line lets the program go on: no command before it does, nor is one a Ctrl-C. */
  predicate LetsGo(t: Table, frame: Regs, cs: seq<Command>, i: nat) {
    && i < |cs| && Releases(t, frame, cs[i])
    && forall j :: 0 <= j < i ==> !cs[j].CtrlC? && !Releases(t, frame, cs[j])
  }

  /** Command `i` of a line that starts at a stop succeeds. */
  predicate Succeeds(t: Table, frame: Regs, cs: seq<Command>, i: nat)
    requires i < |cs|
  {
    if cs[i].Other? then cs[i].code == 0 else LetsGo(t, frame, cs, i)
  }

  predicate AllSucceed(t: Table, frame: Regs, cs: seq<Command>) {
    forall i :: 0 <= i < |cs| ==> Succeeds(t, frame, cs, i)
  }

  /** The table of commands marks every one of them as repeatable. */
  predicate AllRepeatable(cs: seq<Command>) {
    forall i :: 0 <= i < |cs| ==> cs[i].Step? || cs[i].Next? || (cs[i].Other? && cs[i].repeatable)
  }

  /** What the command that lets go asks of the hooks. */
  function HooksOf(t: Table, bp: int, frame: Regs, c: Command): seq<Hook>
    requires Releases(t, frame, c)
  {
    if c.Continue? then [] else [Set(bp, NextAddress(t, c.mem, frame, c.Next?).value)]
  }

  lemma LaterLetsGo(t: Table, frame: Regs, cs: seq<Command>, i: nat)
    requires cs != [] && !cs[0].CtrlC? && !Releases(t, frame, cs[0])
    ensures LetsGo(t, frame, cs, i + 1) <==> LetsGo(t, frame, cs[1..], i)
  {
    var rest := cs[1..];
    assert forall j :: 0 <= j < |rest| ==> rest[j] == cs[j + 1];
    if LetsGo(t, frame, rest, i) {
      forall j | 0 <= j < i + 1 ensures !cs[j].CtrlC? && !Releases(t, frame, cs[j]) {
        assert j > 0 ==> cs[j] == rest[j - 1];
      }
    }
  }

  /** What an outcome of a line that starts at a stop has to be. */
  ghost predicate LineOutcome(t: Table, s: Session, cs: seq<Command>, failed: bool, repeatable: bool, frame: Regs,
                              o: Outcome) {
    && (!o.s.stopped <==> exists i: nat :: LetsGo(t, frame, cs, i))
    && (o.s.stopped ==> o.s == s)
    && (forall i: nat :: LetsGo(t, frame, cs, i) ==>
          o.s == s.(stopped := false, hooks := s.hooks + HooksOf(t, s.bp, frame, cs[i])))
    && o.code == (if failed || !AllSucceed(t, frame, cs) then -1 else if repeatable && AllRepeatable(cs) then 1 else 0)
  }

  predicate AllOther(cs: seq<Command>) {
    forall i :: 0 <= i < |cs| ==> cs[i].Other? && cs[i].code == 0
  }

  /** Outside a session nothing changes, and the debugger's own commands fail. */
  lemma {:induction false} IdleLine(t: Table, s: Session, cs: seq<Command>, failed: bool, repeatable: bool)
    requires !s.stopped
    ensures ExecuteAll(t, s, cs, failed, repeatable)
         == Outcome(s, if failed || !AllOther(cs) then -1 else if repeatable && AllRepeatable(cs) then 1 else 0)
    decreases |cs|
  {
    if cs != [] {
      var c, rest := cs[0], cs[1..];
      assert cs == [c] + rest;
      assert AllOther(cs) <==> c.Other? && c.code == 0 && AllOther(rest);
      assert AllRepeatable(cs) <==> AllRepeatable([c]) && AllRepeatable(rest);
      if !c.CtrlC? {
        IdleLine(t, s, rest, failed || Execute(t, s, c).code != 0, repeatable && Repeatable(c));
        assert AllRepeatable([c]) <==> Repeatable(c) by { assert [c][0] == c; }
      }
    }
  }

  /** A line that starts at a stop: the session is left exactly when some command lets go, the first such
      command alone calls the hooks, and the code says whether every command succeeded and may be
      repeated. */
  lemma {:induction false} LineExact(t: Table, s: Session, cs: seq<Command>, failed: bool, repeatable: bool,
                                     frame: Regs)
    requires s.stopped && s.regs == Some(frame)
    ensures LineOutcome(t, s, cs, failed, repeatable, frame, ExecuteAll(t, s, cs, failed, repeatable))
    decreases |cs|
  {
    if cs != [] {
      var c, rest := cs[0], cs[1..];
      assert cs == [c] + rest;
      if c.CtrlC? {
        assert !Succeeds(t, frame, cs, 0);
      } else if Releases(t, frame, c) {
        LineReleased(t, s, cs, failed, repeatable, frame);
      } else {
        var o := Execute(t, s, c);
        assert o.s == s;
        LineExact(t, s, rest, failed || o.code != 0, repeatable && Repeatable(c), frame);
        LineLater(t, s, cs, failed, repeatable, frame, ExecuteAll(t, s, cs, failed, repeatable));
      }
    }
  }

  lemma LineReleased(t: Table, s: Session, cs: seq<Command>, failed: bool, repeatable: bool, frame: Regs)
    requires s.stopped && s.regs == Some(frame) && cs != [] && Releases(t, frame, cs[0])
    ensures LineOutcome(t, s, cs, failed, repeatable, frame, ExecuteAll(t, s, cs, failed, repeatable))
  {
    var c, rest := cs[0], cs[1..];
    var o := Execute(t, s, c);
    assert cs == [c] + rest;
    assert o.code == 0 && o.s == s.(stopped := false, hooks := s.hooks + HooksOf(t, s.bp, frame, c));
    IdleLine(t, o.s, rest, failed, repeatable && Repeatable(c));
    assert LetsGo(t, frame, cs, 0);
    assert forall i :: 0 <= i < |rest| ==> rest[i] == cs[i + 1];
    assert AllSucceed(t, frame, cs) <==> AllOther(rest) by {
      if AllSucceed(t, frame, cs) {
        forall i | 0 <= i < |rest| ensures rest[i].Other? && rest[i].code == 0 {
          assert Succeeds(t, frame, cs, i + 1);
        }
      }
    }
    RepeatableParts(cs);
  }

  lemma RepeatableParts(cs: seq<Command>)
    requires cs != []
    ensures AllRepeatable(cs) <==> Repeatable(cs[0]) && AllRepeatable(cs[1..])
  {
    assert forall i :: 0 <= i < |cs| - 1 ==> cs[1..][i] == cs[i + 1];
    assert AllRepeatable(cs[1..]) && Repeatable(cs[0]) ==>
        forall i :: 0 < i < |cs| ==> cs[i] == cs[1..][i - 1];
  }

  lemma LineLater(t: Table, s: Session, cs: seq<Command>, failed: bool, repeatable: bool, frame: Regs, o: Outcome)
    requires cs != [] && !cs[0].CtrlC? && !Releases(t, frame, cs[0])
    requires LineOutcome(t, s, cs[1..], failed || !(cs[0].Other? && cs[0].code == 0), repeatable && Repeatable(cs[0]),
                         frame, o)
    ensures LineOutcome(t, s, cs, failed, repeatable, frame, o)
  {
    var rest := cs[1..];
    assert forall i :: 0 <= i < |rest| ==> rest[i] == cs[i + 1];
    forall i: nat ensures LetsGo(t, frame, cs, i + 1) <==> LetsGo(t, frame, rest, i) {
      LaterLetsGo(t, frame, cs, i);
    }
    assert !LetsGo(t, frame, cs, 0);
    assert forall i: nat :: LetsGo(t, frame, cs, i) ==> i > 0 && LetsGo(t, frame, rest, i - 1) && cs[i] == rest[i - 1];
    assert AllSucceed(t, frame, cs) <==> Succeeds(t, frame, cs, 0) && AllSucceed(t, frame, rest) by {
      assert forall i :: 0 <= i < |rest| ==> (Succeeds(t, frame, cs, i + 1) <==> Succeeds(t, frame, rest, i));
      if Succeeds(t, frame, cs, 0) && AllSucceed(t, frame, rest) {
        forall i | 0 <= i < |cs| ensures Succeeds(t, frame, cs, i) {
          assert i > 0 ==> Succeeds(t, frame, rest, i - 1);
        }
      }
    }
    RepeatableParts(cs);
  }

  /** One turn at a prompt.  Only a line typed, or one repeated by Return, runs commands; an interrupt
      forgets the line unless the turn before it returned a positive code. */
  lemma TurnExact(t: Table, s: Session, rc: int, input: Input, frame: Regs)
    requires s.stopped && s.regs == Some(frame)
    ensures var o := Turn(t, s, rc, input);
            if input.Interrupt? then
              o.code == rc && o.s == s.(last := if rc > 0 then s.last else [])
            else if input.text == [] && s.last == [] then
              o.code == -1 && o.s == s.(runs := s.runs + [Run([], -1)])
            else
              var line := if input.text != [] then input.text else s.last;
              && LineOutcome(t, s, input.commands, input.commands == [], true, frame,
                             Outcome(o.s.(runs := s.runs, last := s.last), o.code))
              && o.s.runs == s.runs + [Run(line, o.code)]
              && o.s.last == if o.code == 1 then line else []
  {
    if input.Typed? && (input.text != [] || s.last != []) {
      var line := LineOf(s, input);
      var s' := s.(last := line);
      LineExact(t, s', input.commands, input.commands == [], true, frame);
    }
  }

  /** A session with the one line `continue`: the program goes on and no breakpoint is set. */
  lemma ContinueOnce(t: Table, s: Session, bp: int, frame: Regs, text: string)
    requires AtRest(s) && (text != [] || s.last != [])
    ensures var r := Trap(t, s, bp, frame, [Typed(text, [Continue])]);
            AtRest(r) && r.hooks == s.hooks + [Clear(bp)] && r.last == []
  {
    OneCommand(t, s, bp, frame, text, Continue);
  }

  lemma OneCommand(t: Table, s: Session, bp: int, frame: Regs, text: string, c: Command)
    requires AtRest(s) && (text != [] || s.last != []) && !c.Other? && !c.CtrlC?
    ensures var r := Trap(t, s, bp, frame, [Typed(text, [c])]);
            if Releases(t, frame, c) then
              && AtRest(r) && r.hooks == s.hooks + [Clear(bp)] + HooksOf(t, bp, frame, c)
              && (r.last == [] <==> c.Continue?)
            else AtPrompt(r, bp, frame) && r.hooks == s.hooks + [Clear(bp)] && r.last == []
  {
    var s0, cs := Enter(s, bp, frame), [c];
    var input := Typed(text, cs);
    OneTurn(t, s0, input, bp, frame);
    TurnExact(t, s0, 0, input, frame);
    assert cs[0] == c;
    assert Releases(t, frame, c) <==> LetsGo(t, frame, cs, 0);
    assert AllSucceed(t, frame, cs) <==> Succeeds(t, frame, cs, 0);
  }

  lemma OneTurn(t: Table, s: Session, input: Input, bp: int, frame: Regs)
    requires AtPrompt(s, bp, frame)
    ensures var r, o := Loop(t, s, 0, [input]), Turn(t, s, 0, input);
            if o.s.stopped then r == o.s && AtPrompt(r, bp, frame)
            else r == o.s.(regs := None, bp := 0) && AtRest(r)
  {
    TurnKeeps(t, s, 0, input, bp, frame);
    assert [input][1..] == [];
  }

  /** `lastcommand` is not empty when the session comes to input `k`: every command of the line before it
      succeeded and may be repeated, or it is still the one from before the session.  `kept` says that an
      interrupt at the first prompt would leave it. */
  predicate Carried(t: Table, frame: Regs, inputs: seq<Input>, k: nat, last: bool, kept: bool)
    requires k <= |inputs|
    decreases k, 0
  {
    if k == 0 then last
    else if inputs[k - 1].Interrupt? then Carried(t, frame, inputs, k - 1, last, kept) && (k > 1 || kept)
    else RunsAt(t, frame, inputs, k - 1, last, kept) && Repeats(t, frame, inputs[k - 1].commands)
  }

  /** The commands of input `k` are run. */
  predicate RunsAt(t: Table, frame: Regs, inputs: seq<Input>, k: nat, last: bool, kept: bool)
    requires k < |inputs|
    decreases k, 1
  {
    inputs[k].Typed? && (inputs[k].text != [] || Carried(t, frame, inputs, k, last, kept))
  }

  /** A line of these commands is remembered. */
  predicate Repeats(t: Table, frame: Regs, cs: seq<Command>) {
    cs != [] && AllSucceed(t, frame, cs) && AllRepeatable(cs)
  }

  /** Input `k` runs command `i`, and that lets the program go on. */
  predicate LeavesAt(t: Table, frame: Regs, inputs: seq<Input>, k: nat, i: nat, last: bool, kept: bool) {
    k < |inputs| && RunsAt(t, frame, inputs, k, last, kept) && LetsGo(t, frame, inputs[k].commands, i)
  }

  /** Without the first input. */
  lemma {:induction false} CarriedOn(t: Table, frame: Regs, inputs: seq<Input>, k: nat, last: bool, kept: bool,
                                     last': bool, kept': bool)
    requires k < |inputs| && last' == Carried(t, frame, inputs, 1, last, kept)
    requires if inputs[0].Interrupt? then kept' == kept else kept' == last'
    ensures Carried(t, frame, inputs, k + 1, last, kept) == Carried(t, frame, inputs[1..], k, last', kept')
  {
    if k > 0 {
      CarriedOn(t, frame, inputs, k - 1, last, kept, last', kept');
      assert inputs[1..][k - 1] == inputs[k];
    }
  }

  /** Input `k` is the first that leaves the session. */
  ghost predicate LeavesFirst(t: Table, frame: Regs, inputs: seq<Input>, k: nat, i: nat, last: bool, kept: bool) {
    && LeavesAt(t, frame, inputs, k, i, last, kept)
    && forall j: nat, h: nat :: j < k ==> !LeavesAt(t, frame, inputs, j, h, last, kept)
  }

  lemma LeavesLater(t: Table, frame: Regs, inputs: seq<Input>, k: nat, i: nat, last: bool, kept: bool,
                    last': bool, kept': bool)
    requires inputs != [] && last' == Carried(t, frame, inputs, 1, last, kept)
    requires if inputs[0].Interrupt? then kept' == kept else kept' == last'
    ensures LeavesAt(t, frame, inputs, k + 1, i, last, kept) <==> LeavesAt(t, frame, inputs[1..], k, i, last', kept')
  {
    if k + 1 < |inputs| {
      CarriedOn(t, frame, inputs, k, last, kept, last', kept');
      assert inputs[1..][k] == inputs[k + 1];
    }
  }

  /** What a whole session from prompt `s` has to come to. */
  ghost predicate SessionOutcome(t: Table, s: Session, inputs: seq<Input>, frame: Regs, last: bool, kept: bool,
                                 r: Session) {
    && (!r.stopped <==> exists k: nat, i: nat :: LeavesAt(t, frame, inputs, k, i, last, kept))
    && (forall k: nat, i: nat :: LeavesFirst(t, frame, inputs, k, i, last, kept) ==>
          r.hooks == s.hooks + HooksOf(t, s.bp, frame, inputs[k].commands[i]))
  }

  /** A whole session, whatever is typed: it is left exactly when some line that is run has a command that
      lets go, and the first such command is the only one that calls the hooks. */
  lemma {:induction false} SessionExact(t: Table, s: Session, rc: int, inputs: seq<Input>, bp: int, frame: Regs)
    requires AtPrompt(s, bp, frame)
    ensures SessionOutcome(t, s, inputs, frame, s.last != [], rc > 0, Loop(t, s, rc, inputs))
    decreases |inputs|
  {
    if inputs != [] {
      var o, last, kept := Turn(t, s, rc, inputs[0]), s.last != [], rc > 0;
      TurnKeeps(t, s, rc, inputs[0], bp, frame);
      FirstTurn(t, s, rc, inputs, frame, last, kept);
      if o.s.stopped {
        SessionExact(t, o.s, o.code, inputs[1..], bp, frame);
        SessionLater(t, s, inputs, frame, last, kept, o.s.last != [], o.code > 0, o.s, Loop(t, s, rc, inputs));
      } else {
        var r := o.s.(regs := None, bp := 0);
        assert Loop(t, o.s, o.code, inputs[1..]) == r;
        LeftAtOnce(t, s, inputs, frame, last, kept, r);
      }
    }
  }

  lemma LeftAtOnce(t: Table, s: Session, inputs: seq<Input>, frame: Regs, last: bool, kept: bool, r: Session)
    requires exists i: nat :: LeavesAt(t, frame, inputs, 0, i, last, kept)
    requires forall i: nat :: LeavesAt(t, frame, inputs, 0, i, last, kept) ==>
               r.hooks == s.hooks + HooksOf(t, s.bp, frame, inputs[0].commands[i])
    requires !r.stopped
    ensures SessionOutcome(t, s, inputs, frame, last, kept, r)
  {
  }

  lemma FirstTurn(t: Table, s: Session, rc: int, inputs: seq<Input>, frame: Regs, last: bool, kept: bool)
    requires inputs != [] && s.stopped && s.regs == Some(frame) && last == (s.last != []) && kept == (rc > 0)
    ensures var o := Turn(t, s, rc, inputs[0]);
            && (o.s.last != []) == Carried(t, frame, inputs, 1, last, kept)
            && (if inputs[0].Interrupt? then o.code == rc else o.code > 0 <==> o.s.last != [])
            && (!o.s.stopped <==> exists i: nat :: LeavesAt(t, frame, inputs, 0, i, last, kept))
            && (forall i: nat :: LeavesAt(t, frame, inputs, 0, i, last, kept) ==>
                  o.s.hooks == s.hooks + HooksOf(t, s.bp, frame, inputs[0].commands[i]))
            && (o.s.stopped ==> o.s.hooks == s.hooks && o.s.bp == s.bp)
  {
    TurnExact(t, s, rc, inputs[0], frame);
    assert RunsAt(t, frame, inputs, 0, last, kept) <==> inputs[0].Typed? && (inputs[0].text != [] || last);
    if RunsAt(t, frame, inputs, 0, last, kept) {
      assert forall i: nat :: LeavesAt(t, frame, inputs, 0, i, last, kept) <==> LetsGo(t, frame, inputs[0].commands, i);
    }
  }

  lemma SessionLater(t: Table, s: Session, inputs: seq<Input>, frame: Regs, last: bool, kept: bool,
                     last': bool, kept': bool, s': Session, r: Session)
    requires inputs != [] && last' == Carried(t, frame, inputs, 1, last, kept)
    requires if inputs[0].Interrupt? then kept' == kept else kept' == last'
    requires forall i: nat :: !LeavesAt(t, frame, inputs, 0, i, last, kept)
    requires s'.hooks == s.hooks && s'.bp == s.bp && SessionOutcome(t, s', inputs[1..], frame, last', kept', r)
    ensures SessionOutcome(t, s, inputs, frame, last, kept, r)
  {
    var rest := inputs[1..];
    forall k: nat, i: nat
      ensures LeavesAt(t, frame, inputs, k + 1, i, last, kept) <==> LeavesAt(t, frame, rest, k, i, last', kept')
    {
      LeavesLater(t, frame, inputs, k, i, last, kept, last', kept');
    }
    forall k: nat, i: nat | LeavesFirst(t, frame, inputs, k, i, last, kept)
      ensures r.hooks == s.hooks + HooksOf(t, s.bp, frame, inputs[k].commands[i])
    {
      assert k > 0 && rest[k - 1] == inputs[k];
      assert LeavesFirst(t, frame, rest, k - 1, i, last', kept');
    }
    if k: nat, i: nat :| LeavesAt(t, frame, inputs, k, i, last, kept) {
      assert k > 0;
      assert LeavesAt(t, frame, rest, k - 1, i, last', kept');
    }
  }

  // ----- histories -----

  /** What happens to the debugger: a line run from U-Boot's own prompt, or a breakpoint with what is
      then typed.  Breakpoints do not nest. */
  datatype Event = Console(commands: seq<Command>) | Breakpoint(bp: int, frame: Regs, inputs: seq<Input>)

  function Happen(t: Table, s: Session, e: Event): Session {
    match e
    case Console(commands) => ExecuteAll(t, s, commands, false, true).s
    case Breakpoint(bp, frame, inputs) => Trap(t, s, bp, frame, inputs)
  }

  /** A session whose inputs run out while it is stopped is still waiting: nothing happens after it. */
  function History(t: Table, s: Session, es: seq<Event>): Session
    decreases |es|
  {
    if es == [] || s.stopped then s else History(t, Happen(t, s, es[0]), es[1..])
  }

  const INITIAL := Session(false, None, 0, [], [], [])

  /** A console line changes nothing; every prompt of a session is that session's own. */
  ghost predicate EventFine(t: Table, s: Session, e: Event) {
    if e.Console? then Happen(t, s, e) == s
    else EveryPrompt(t, Enter(s, e.bp, e.frame), 0, e.inputs, e.bp, e.frame)
  }

  /** What holds all through a history: between the events the debugger is at rest, console lines change
      nothing, and every prompt of every session is that session's own. */
  ghost predicate Throughout(t: Table, s: Session, es: seq<Event>)
    decreases |es|
  {
    !s.stopped ==>
      && AtRest(s)
      && (es != [] ==>
            && Throughout(t, Happen(t, s, es[0]), es[1..])
            && EventFine(t, s, es[0]))
  }

  /** Every history: what holds throughout, and at its end the debugger is at rest or at a prompt of the
      breakpoint that stopped it. */
  lemma {:induction false} HistoryInvariant(t: Table, s: Session, es: seq<Event>)
    requires AtRest(s)
    ensures Throughout(t, s, es)
    ensures var r := History(t, s, es);
            || AtRest(r)
            || (exists i :: 0 <= i < |es| && es[i].Breakpoint? && AtPrompt(r, es[i].bp, es[i].frame))
    decreases |es|
  {
    if es != [] {
      var s', rest := Happen(t, s, es[0]), es[1..];
      EventKeeps(t, s, es[0]);
      if s'.stopped {
        assert History(t, s, es) == s' && AtPrompt(s', es[0].bp, es[0].frame);
      } else {
        HistoryInvariant(t, s', rest);
        if i :| 0 <= i < |rest| && rest[i].Breakpoint? && AtPrompt(History(t, s', rest), rest[i].bp, rest[i].frame) {
          assert rest[i] == es[i + 1];
        }
      }
    }
  }

  lemma EventKeeps(t: Table, s: Session, e: Event)
    requires AtRest(s)
    ensures EventFine(t, s, e)
    ensures var s' := Happen(t, s, e);
            if s'.stopped then e.Breakpoint? && AtPrompt(s', e.bp, e.frame) else AtRest(s')
  {
    match e {
      case Console(commands) => LineKeeps(t, s, commands, false, true, Regs(0, 0, 0, 0));
      case Breakpoint(bp, frame, inputs) => LoopKeeps(t, Enter(s, bp, frame), 0, inputs, bp, frame);
    }
  }

  // ----- stepping through a program -----

  /** A stop: the registers, and the memory at that time. */
  datatype Stop = Stop(regs: Regs, mem: Word -> Word)

  /** The instruction at a stop. */
  function FormAt(p: Stop): Form {
    FormOf(p.mem(p.regs.nip))
  }

  /** A system call, a return from interrupt or a trap: where it goes is up to the system. */
  predicate Transfers(w: Word) {
    var primary, xo := w / 0x400_0000, w / 2 % 1024;
    primary == 17 || primary == 3 || (primary == 19 && xo == 50) || (primary == 31 && xo == 4)
  }

  /** Consecutive stops: unless the system takes over, each program counter is the architecture's next
      instruction address after the previous stop.  Memory may change in between. */
  ghost predicate MachineTrace(ps: seq<Stop>) {
    && (forall k :: 0 <= k < |ps| ==> ps[k].regs.nip % 4 == 0)
    && forall k :: 0 <= k < |ps| - 1 ==> Follows(ps[k], ps[k + 1].regs.nip)
  }

  predicate Follows(p: Stop, next: Word) {
    Transfers(p.mem(p.regs.nip)) || next == Nia(FormAt(p), p.regs.nip, p.regs)
  }

  /** The stepper expects the stop after `p`: a transfer came back to the next instruction, and a branch
      is foreseen. */
  predicate Expected(p: Stop, next: Word) {
    if Transfers(p.mem(p.regs.nip)) then next == Following(p.regs.nip)
    else Foreseen(FormAt(p), p.regs.nip, p.regs)
  }

  function Forecast(t: Table, p: Stop): Option<Word> {
    NextAddress(t, p.mem, p.regs, false)
  }

  /** The instruction at a stop has a row in the table and a form the architecture allows. */
  predicate Steppable(t: Table, p: Stop) {
    FirstMatch(t.opcodes, p.mem(p.regs.nip)).Some? && ValidForm(FormAt(p))
  }

  /** At every stop the user runs `step`, by typing a line or by Return. */
  function StepEvents(bp: int, texts: seq<string>, ps: seq<Stop>): seq<Event>
    requires |texts| == |ps|
  {
    if ps == [] then []
    else [Breakpoint(bp, ps[0].regs, [Typed(texts[0], [Step(ps[0].mem)])])] + StepEvents(bp, texts[1..], ps[1..])
  }

  /** The addresses computed at the successive stops. */
  function Forecasts(t: Table, ps: seq<Stop>): (addrs: seq<Word>)
    requires forall k :: 0 <= k < |ps| ==> Forecast(t, ps[k]).Some?
    ensures |addrs| == |ps|
    ensures forall k :: 0 <= k < |ps| ==> addrs[k] == Forecast(t, ps[k]).value
  {
    seq(|ps|, k requires 0 <= k < |ps| => Forecast(t, ps[k]).value)
  }

  function SetAddresses(hooks: seq<Hook>): seq<Word> {
    if hooks == [] then []
    else
      var n := |hooks| - 1;
      SetAddresses(hooks[..n]) + if hooks[n].Set? then [hooks[n].addr] else []
  }

  /** One stop at which the user steps, by typing the command or by Return when it is remembered.  When
      no address can be computed the session stays stopped and nothing is set. */
  lemma StepOnce(t: Table, s: Session, bp: int, p: Stop, text: string)
    requires AtRest(s) && (text != [] || s.last != [])
    ensures var r, next := Trap(t, s, bp, p.regs, [Typed(text, [Step(p.mem)])]), Forecast(t, p);
            if next.None? then AtPrompt(r, bp, p.regs) && r.hooks == s.hooks + [Clear(bp)] && r.last == []
            else AtRest(r) && r.last != [] && r.hooks == s.hooks + [Clear(bp)] + [Set(bp, next.value)]
  {
    OneCommand(t, s, bp, p.regs, text, Step(p.mem));
  }

  /** The same for `next`, with the address that steps over subroutines. */
  lemma NextOnce(t: Table, s: Session, bp: int, p: Stop, text: string)
    requires AtRest(s) && (text != [] || s.last != [])
    ensures var r, next := Trap(t, s, bp, p.regs, [Typed(text, [Next(p.mem)])]), NextAddress(t, p.mem, p.regs, true);
            if next.None? then AtPrompt(r, bp, p.regs) && r.hooks == s.hooks + [Clear(bp)] && r.last == []
            else AtRest(r) && r.last != [] && r.hooks == s.hooks + [Clear(bp)] + [Set(bp, next.value)]
  {
    OneCommand(t, s, bp, p.regs, text, Next(p.mem));
  }

  lemma SetAddressesOfStep(hooks: seq<Hook>, bp: int, addr: Word)
    ensures SetAddresses(hooks + [Clear(bp)] + [Set(bp, addr)]) == SetAddresses(hooks) + [addr]
  {
    var one := hooks + [Clear(bp)];
    assert (one + [Set(bp, addr)])[..|one|] == one;
    assert one[..|hooks|] == hooks;
  }

  /** The addresses that stepping sets are the forecasts for the successive stops.  Only the first
      command has to be typed. */
  lemma {:induction false} SteppingSets(t: Table, s: Session, bp: int, texts: seq<string>, ps: seq<Stop>)
    requires AtRest(s) && |texts| == |ps| && (ps != [] ==> texts[0] != [] || s.last != [])
    requires forall k :: 0 <= k < |ps| ==> Forecast(t, ps[k]).Some?
    ensures var r := History(t, s, StepEvents(bp, texts, ps));
            AtRest(r) && SetAddresses(r.hooks) == SetAddresses(s.hooks) + Forecasts(t, ps)
    decreases |ps|
  {
    if ps != [] {
      var s' := Trap(t, s, bp, ps[0].regs, [Typed(texts[0], [Step(ps[0].mem)])]);
      StepOnce(t, s, bp, ps[0], texts[0]);
      SteppingSets(t, s', bp, texts[1..], ps[1..]);
      StepsApart(t, s, bp, texts, ps);
      SetAddressesOfStep(s.hooks, bp, Forecast(t, ps[0]).value);
      ForecastsApart(t, SetAddresses(s.hooks), ps);
    }
  }

  lemma StepsApart(t: Table, s: Session, bp: int, texts: seq<string>, ps: seq<Stop>)
    requires ps != [] && |texts| == |ps| && !s.stopped
    ensures History(t, s, StepEvents(bp, texts, ps))
            == History(t, Trap(t, s, bp, ps[0].regs, [Typed(texts[0], [Step(ps[0].mem)])]),
                       StepEvents(bp, texts[1..], ps[1..]))
  {
    var e := Breakpoint(bp, ps[0].regs, [Typed(texts[0], [Step(ps[0].mem)])]);
    var rest := StepEvents(bp, texts[1..], ps[1..]);
    assert ([e] + rest)[1..] == rest;
  }

  lemma ForecastsApart(t: Table, before: seq<Word>, ps: seq<Stop>)
    requires ps != [] && forall k :: 0 <= k < |ps| ==> Forecast(t, ps[k]).Some?
    ensures before + Forecasts(t, ps) == before + [Forecast(t, ps[0]).value] + Forecasts(t, ps[1..])
  {}

  /** The forecast at a stop is the next stop exactly when that is expected. */
  lemma ForecastAt(t: Table, p: Stop, next: Word)
    requires Steppable(t, p) && p.regs.nip % 4 == 0 && Follows(p, next)
    ensures var a := Forecast(t, p); a.Some? && (a.value == next <==> Expected(p, next))
  {
    assert Aligned(p.regs.nip) == p.regs.nip;
    if Transfers(p.mem(p.regs.nip)) {
      assert FormAt(p) == Sequential;
    } else {
      PredictionExact(FormAt(p), p.regs.nip, p.regs);
    }
  }

  /** Every stop after the first is expected at the stop before it. */
  ghost predicate AllExpected(ps: seq<Stop>) {
    forall k :: 0 <= k < |ps| - 1 ==> Expected(ps[k], ps[k + 1].regs.nip)
  }

  /** The program counters of the stops. */
  function ProgramCounters(ps: seq<Stop>): (pcs: seq<Word>)
    ensures |pcs| == |ps| && forall k :: 0 <= k < |ps| ==> pcs[k] == ps[k].regs.nip
  {
    seq(|ps|, k requires 0 <= k < |ps| => ps[k].regs.nip)
  }

  /** Stepping from stop to stop along a machine trace, any number of times: the breakpoints set are
      exactly the program counters of the trace if and only if every stop is expected. */
  lemma SteppingFollowsMachine(t: Table, bp: int, texts: seq<string>, ps: seq<Stop>)
    requires ps != [] && |texts| == |ps| - 1 && (texts != [] ==> texts[0] != []) && MachineTrace(ps)
    requires forall k :: 0 <= k < |ps| - 1 ==> Steppable(t, ps[k])
    ensures var stops := ps[..|ps| - 1];
            SetAddresses(History(t, INITIAL, StepEvents(bp, texts, stops)).hooks) == ProgramCounters(ps[1..]) <==>
            AllExpected(ps)
  {
    var stops := ps[..|ps| - 1];
    ForecastsMatch(t, ps, stops);
    SteppingSets(t, INITIAL, bp, texts, stops);
    assert SetAddresses(INITIAL.hooks) + Forecasts(t, stops) == Forecasts(t, stops);
  }

  lemma ForecastsMatch(t: Table, ps: seq<Stop>, stops: seq<Stop>)
    requires ps != [] && stops == ps[..|ps| - 1] && MachineTrace(ps)
    requires forall k :: 0 <= k < |ps| - 1 ==> Steppable(t, ps[k])
    ensures forall k :: 0 <= k < |stops| ==> Forecast(t, stops[k]).Some?
    ensures Forecasts(t, stops) == ProgramCounters(ps[1..]) <==> AllExpected(ps)
  {
    var pcs := ProgramCounters(ps[1..]);
    forall k | 0 <= k < |stops|
      ensures Forecast(t, stops[k]).Some?
      ensures Forecast(t, stops[k]).value == pcs[k] <==> Expected(ps[k], ps[k + 1].regs.nip)
    {
      ForecastAt(t, ps[k], ps[k + 1].regs.nip);
    }
    if AllExpected(ps) {
      assert Forecasts(t, stops) == pcs;
    } else {
      var k :| 0 <= k < |ps| - 1 && !Expected(ps[k], ps[k + 1].regs.nip);
      assert Forecasts(t, stops)[k] != pcs[k];
    }
  }
}
