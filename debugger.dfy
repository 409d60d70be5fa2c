/** The debugger of libgbc/debug.cpp (and the older one-key pause of
    libgbc/cpu.cpp) as functions on the CPU state: one command line, the
    pause loop that reads lines until one resumes, and break_checks. */
module Debugger {

  import opened Machine
  import opened Text

  /** std::strtoul(s, 0, 16) and std::stoi(s), taken as given: the model
      sees numeric arguments only through these two conversions. */
  datatype Parsers = Parsers(hex: string -> nat, dec: string -> int)

  /** The command name of a line: its first space-separated token. */
  function CommandName(line: string): string
  {
    Tokens(line, ' ')[0]
  }

  /** The commands after which execute_commands returns false, so that the
      pause loop ends and the machine resumes. */
  predicate IsResume(cmd: string)
  {
    cmd == "c" || cmd == "continue" || cmd == "" || cmd == "s" || cmd == "step" ||
    cmd == "r" || cmd == "run" || cmd == "q" || cmd == "quit" || cmd == "exit" || cmd == "reset"
  }

  /** Whether execute_commands asks to be called again for this line. */
  predicate Keeps(line: string)
  {
    line != "" && !IsResume(CommandName(line))
  }

  /** CPU::break_on_steps asserts that the count is not negative; for a
      `step n` line that is a demand on n. */
  predicate StepArgOk(line: string, parse: Parsers)
  {
    var p := Tokens(line, ' ');
    line != "" && (p[0] == "s" || p[0] == "step") && |p| > 1 ==> parse.dec(p[1]) >= 0
  }

  /** What the console delivers: lines without their newline, each `step n`
      with a count break_on_steps accepts. */
  predicate InputOk(lines: seq<string>, parse: Parsers)
  {
    forall i :: 0 <= i < |lines| ==> '\n' !in lines[i] && StepArgOk(lines[i], parse)
  }

  /** A console line as execute_commands (libgbc/debug.cpp:45-163) reads
      it: the branch it takes, with that branch's converted arguments. */
  datatype Cmd =
    | Blank                            // empty line, or empty first token
    | Continue                         // c, continue
    | Step(n: int)                     // s, step [n]
    | BreakUsage                       // b, break without an address
    | BreakAt(addr: u16)               // b, break <hex>
    | Clear                            // clear
    | ToggleVerbose                    // v, verbose
    | Run                              // r, run
    | Quit                             // q, quit, exit
    | ResetMachine                     // reset
    | Inert                            // ld, read, help, ?, unknown commands
    | WriteUsage                       // write with fewer than two arguments
    | WriteAt(addr: u16, value: u8)    // write <hex> <dec>
    | RenderVBlank                     // vblank
    | DebugIrq                         // debug

  /** The commands after which the function returns false. */
  predicate Resumes(c: Cmd)
  {
    c.Blank? || c.Continue? || c.Step? || c.Run? || c.Quit? || c.ResetMachine?
  }

  /** Which branch of execute_commands a line takes. */
  function Parse(line: string, parse: Parsers): (c: Cmd)
    ensures Resumes(c) <==> !Keeps(line)
    ensures StepArgOk(line, parse) && c.Step? ==> c.n >= 0
    ensures c.ResetMachine? <==> line != "" && CommandName(line) == "reset"
  {
    if line == "" then Blank else ParseWords(Tokens(line, ' '), parse)
  }

  /** The same on the words of a non-empty line: the command name first,
      then its arguments. */
  function ParseWords(p: seq<string>, parse: Parsers): (c: Cmd)
    requires |p| >= 1
    ensures Resumes(c) <==> IsResume(p[0])
    ensures c.Step? ==> c.n == (if |p| > 1 then parse.dec(p[1]) else 1)
    ensures c.ResetMachine? <==> p[0] == "reset"
  {
    var cmd := p[0];
    if cmd == "c" || cmd == "continue" then Continue
    else if cmd == "" then Blank
    else if cmd == "s" || cmd == "step" then Step(if |p| > 1 then parse.dec(p[1]) else 1)
    else if cmd == "b" || cmd == "break" then
      if |p| < 2 then BreakUsage else BreakAt(parse.hex(p[1]) % 0x10000)
    else if cmd == "clear" then Clear
    else if cmd == "v" || cmd == "verbose" then ToggleVerbose
    else if cmd == "r" || cmd == "run" then Run
    else if cmd == "q" || cmd == "quit" || cmd == "exit" then Quit
    else if cmd == "reset" then ResetMachine
    else if cmd == "ld" || cmd == "read" then Inert
    else if cmd == "write" then
      if |p| < 3 then WriteUsage else WriteAt(parse.hex(p[1]) % 0x10000, parse.dec(p[2]) % 0x100)
    else if cmd == "vblank" then RenderVBlank
    else if cmd == "debug" then DebugIrq
    else Inert
  }

  /** What the branch does to the machine. */
  function Apply(s: CpuState, c: Cmd): (r: CpuState)
    requires c.Step? ==> c.n >= 0
    ensures r.input == s.input
    ensures Valid(s) ==> Valid(r)
    ensures !c.ResetMachine? ==> r.brk == s.brk && r.regs == s.regs && r.cycles == s.cycles
    ensures r.opcode == s.opcode && SameInterruptState(s, r)
    ensures DebugExtends(s.events, r.events)
  {
    match c
    case ResetMachine => BreakNow(Reset(s).(events := s.events + [MachineReset]))
    case WriteAt(a, v) => s.(mem := Poke(s.mem, a, v))
    case RenderVBlank => s.(events := s.events + [VBlankRendered])
    case DebugIrq => s.(events := s.events + [DebugInterrupt])
    case _ => ApplyControl(s, c)
  }

  /** The branches that only touch the debugger's own settings. */
  function ApplyControl(s: CpuState, c: Cmd): (r: CpuState)
    requires c.Step? ==> c.n >= 0
    requires !c.ResetMachine? && !c.WriteAt? && !c.RenderVBlank? && !c.DebugIrq?
    ensures r.input == s.input && r.events == s.events && r.opcode == s.opcode
    ensures r.brk == s.brk && r.regs == s.regs && r.cycles == s.cycles && r.mem == s.mem
    ensures SameInterruptState(s, r)
    ensures Valid(s) ==> Valid(r)
  {
    match c
    case Continue => BreakOnSteps(s, 0)
    case Step(n) => BreakOnSteps(s.(verbose := true), n)
    case BreakAt(a) => s.(breakpoints := s.breakpoints[a := DefaultPausePoint])
    case Clear => s.(breakpoints := map[])
    case ToggleVerbose => s.(verbose := !s.verbose)
    case Run => BreakOnSteps(s.(verbose := false), 0)
    case Quit => Stop(s)
    case _ => s
  }

  /** execute_commands on one line already read: the new state and whether
      the pause loop goes on. */
  function Command(s: CpuState, line: string, parse: Parsers): (r: (CpuState, bool))
    requires StepArgOk(line, parse)
    ensures r.1 == Keeps(line)
    ensures r.0.input == s.input && SameInterruptState(s, r.0)
    ensures Valid(s) ==> Valid(r.0)
  {
    var c := Parse(line, parse);
    (Apply(s, c), !Resumes(c))
  }

  /** memory().write8 on the seq that stands for memory; addresses outside
      it leave it as it is. */
  function Poke(m: seq<u8>, a: u16, v: u8): (r: seq<u8>)
    ensures |r| == |m|
    ensures a < |m| ==> r[a] == v
    ensures forall b :: 0 <= b < |m| && b != a ==> r[b] == m[b]
  {
    if a < |m| then m[a := v] else m
  }

  /** The getchar loop and the call: read the next console line (an empty
      one at end of input) and run it. */
  function ReadCommand(s: CpuState, parse: Parsers): (r: (CpuState, bool))
    requires InputOk(s.input, parse)
    ensures r.1 ==> |s.input| > 0 && r.0.input == s.input[1..]
    ensures InputOk(r.0.input, parse)
    ensures Valid(s) ==> Valid(r.0)
    ensures SameInterruptState(s, r.0)
  {
    if |s.input| == 0 then Command(s, "", parse)
    else Command(s.(input := s.input[1..]), s.input[0], parse)
  }

  /** `while (execute_commands(cpu));` (libgbc/debug.cpp:185). */
  function PauseLoop(s: CpuState, parse: Parsers): (r: CpuState)
    requires InputOk(s.input, parse)
    ensures InputOk(r.input, parse)
    ensures Valid(s) ==> Valid(r)
    ensures SameInterruptState(s, r)
    decreases |s.input|
  {
    var (s1, keep) := ReadCommand(s, parse);
    if keep then PauseLoop(s1, parse) else s1
  }

  /** How many console lines the pause loop reads: up to and including the
      first that resumes, or all of them when none does. */
  function LinesRead(lines: seq<string>): (n: nat)
    ensures n <= |lines|
    ensures forall j :: 0 <= j < n - 1 ==> Keeps(lines[j])
    ensures n < |lines| ==> n > 0 && !Keeps(lines[n - 1])
    ensures n == 0 <==> |lines| == 0
  {
    if |lines| == 0 then 0
    else if Keeps(lines[0]) then 1 + LinesRead(lines[1..])
    else 1
  }

  /** The pause loop stops exactly at the first line on which
      execute_commands returns false (or at the end of the input). */
  lemma {:induction false} PauseLoopReads(s: CpuState, parse: Parsers)
    requires InputOk(s.input, parse)
    ensures PauseLoop(s, parse).input == s.input[LinesRead(s.input)..]
    decreases |s.input|
  {
    var (s1, keep) := ReadCommand(s, parse);
    if keep {
      PauseLoopReads(s1, parse);
      assert s1.input == s.input[1..];
      assert s.input[1..][LinesRead(s.input[1..])..] == s.input[1 + LinesRead(s.input[1..])..];
    }
  }

  /** The pause loop never calls a breakpoint callback and never signals an
      interrupt: it only adds vblank, debug-interrupt and reset calls. */
  predicate DebugEvent(e: Event)
  {
    e == VBlankRendered || e == DebugInterrupt || e == MachineReset
  }

  /** `b` is `a` followed by debugger events only. */
  predicate DebugExtends(a: seq<Event>, b: seq<Event>)
  {
    |b| >= |a| && b[..|a|] == a && forall i :: |a| <= i < |b| ==> DebugEvent(b[i])
  }

  lemma DebugExtendsTrans(a: seq<Event>, b: seq<Event>, c: seq<Event>)
    requires DebugExtends(a, b) && DebugExtends(b, c)
    ensures DebugExtends(a, c)
  {
    assert c[..|a|] == c[..|b|][..|a|];
  }

  lemma ReadCommandEvents(s: CpuState, parse: Parsers)
    requires InputOk(s.input, parse)
    ensures DebugExtends(s.events, ReadCommand(s, parse).0.events)
  {
  }

  lemma {:induction false} PauseLoopEvents(s: CpuState, parse: Parsers)
    requires InputOk(s.input, parse)
    ensures DebugExtends(s.events, PauseLoop(s, parse).events)
    decreases |s.input|
  {
    var (s1, keep) := ReadCommand(s, parse);
    ReadCommandEvents(s, parse);
    if keep {
      PauseLoopEvents(s1, parse);
      DebugExtendsTrans(s.events, s1.events, PauseLoop(s1, parse).events);
    }
  }

  /** No console line is a `reset`. */
  predicate NoReset(lines: seq<string>)
  {
    forall i :: 0 <= i < |lines| ==> CommandName(lines[i]) != "reset"
  }

  /** Without a `reset` line the pause loop leaves the pause flag, the
      registers and the cycle count alone. */
  lemma {:induction false} PauseLoopNoReset(s: CpuState, parse: Parsers)
    requires InputOk(s.input, parse)
    requires NoReset(s.input)
    ensures var r := PauseLoop(s, parse);
            r.brk == s.brk && r.regs == s.regs && r.cycles == s.cycles
    decreases |s.input|
  {
    var (s1, keep) := ReadCommand(s, parse);
    assert s1.brk == s.brk && s1.regs == s.regs && s1.cycles == s.cycles;
    if keep {
      assert forall i :: 0 <= i < |s1.input| ==> s1.input[i] == s.input[i + 1];
      PauseLoopNoReset(s1, parse);
    }
  }

  /** The pause loop never touches the current opcode. */
  lemma {:induction false} PauseLoopOpcode(s: CpuState, parse: Parsers)
    requires InputOk(s.input, parse)
    ensures PauseLoop(s, parse).opcode == s.opcode
    decreases |s.input|
  {
    var (s1, keep) := ReadCommand(s, parse);
    assert s1.opcode == s.opcode;
    if keep {
      PauseLoopOpcode(s1, parse);
    }
  }

  // ---------------------------------------------------------------------
  // What single commands do
  // ---------------------------------------------------------------------

  /** A line built from space-free words, the first non-empty, takes the
      branch its words select. */
  lemma ParseLine(words: seq<string>, parse: Parsers)
    requires |words| >= 1 && words[0] != ""
    requires forall i :: 0 <= i < |words| ==> ' ' !in words[i]
    ensures Tokens(Join(words, ' '), ' ') == words
    ensures Parse(Join(words, ' '), parse) == ParseWords(words, parse)
  {
    TokensJoin(words, ' ');
    assert Join(words, ' ') != "" by {
      if |words| > 1 {
        assert Join(words, ' ') == words[0] + [' '] + Join(words[1..], ' ');
      }
    }
  }

  /** An empty line, or one whose first token is empty, resumes and changes
      nothing. */
  lemma EmptyCommand(s: CpuState, line: string, parse: Parsers)
    requires line == "" || line[0] == ' '
    ensures Command(s, line, parse) == (s, false)
  {
    if line != "" {
      FindFirst(line, ' ', 0);
    }
  }

  /** `c` ends the stepping and resumes. */
  lemma ContinueCommand(s: CpuState, parse: Parsers)
    ensures Command(s, "c", parse) == (s.(breakSteps := 0, breakStepsCnt := 0), false)
    ensures Command(s, "continue", parse) == Command(s, "c", parse)
  {
    ParseLine(["c"], parse);
    ParseLine(["continue"], parse);
  }

  /** `r` ends the stepping, switches tracing off and resumes. */
  lemma RunCommand(s: CpuState, parse: Parsers)
    ensures Command(s, "r", parse) == (s.(breakSteps := 0, breakStepsCnt := 0, verbose := false), false)
    ensures Command(s, "run", parse) == Command(s, "r", parse)
  {
    ParseLine(["r"], parse);
    ParseLine(["run"], parse);
  }

  /** `q` stops the machine and resumes the loop's caller. */
  lemma QuitStops(s: CpuState, parse: Parsers)
    ensures Command(s, "q", parse) == (s.(running := false), false)
    ensures Command(s, "quit", parse) == Command(s, "q", parse)
    ensures Command(s, "exit", parse) == Command(s, "q", parse)
  {
    QuitWord(s, "q", parse);
    QuitWord(s, "quit", parse);
    QuitWord(s, "exit", parse);
  }

  lemma QuitWord(s: CpuState, w: string, parse: Parsers)
    requires w == "q" || w == "quit" || w == "exit"
    ensures Command(s, w, parse) == (s.(running := false), false)
  {
    ParseLine([w], parse);
  }

  /** `reset` resets the machine and raises the pause flag. */
  lemma ResetCommand(s: CpuState, parse: Parsers)
    ensures var (r, keep) := Command(s, "reset", parse);
            !keep && r.brk && r.regs == PowerOn && r.cycles == 0 &&
            r.events == s.events + [MachineReset]
  {
    ParseLine(["reset"], parse);
  }

  /** `s` turns tracing on and arms a countdown of one step; `s n` of n. */
  lemma StepCommand(s: CpuState, n: string, parse: Parsers)
    requires ' ' !in n && parse.dec(n) >= 0
    ensures Command(s, "s", parse) == (s.(verbose := true, breakSteps := 1, breakStepsCnt := 1), false)
    ensures StepArgOk("s " + n, parse)
    ensures var k := parse.dec(n);
            Command(s, "s " + n, parse) == (s.(verbose := true, breakSteps := k, breakStepsCnt := k), false)
  {
    ParseLine(["s"], parse);
    ParseLine(["s", n], parse);
    assert Join(["s", n], ' ') == "s " + n;
  }

  /** `step` is the long form of `s`: both take the same branch. */
  lemma StepLongForm(n: string, parse: Parsers)
    requires ' ' !in n
    ensures Parse("step", parse) == Parse("s", parse) == Step(1)
    ensures Parse("step " + n, parse) == Parse("s " + n, parse) == Step(parse.dec(n))
  {
    StepWord("s", n, parse);
    StepWord("step", n, parse);
    assert "s" + " " + n == "s " + n;
    assert "step" + " " + n == "step " + n;
  }

  lemma StepWord(w: string, n: string, parse: Parsers)
    requires w == "s" || w == "step"
    requires ' ' !in n
    ensures Parse(w, parse) == Step(1)
    ensures Parse(w + " " + n, parse) == Step(parse.dec(n))
  {
    ParseLine([w], parse);
    ParseLine([w, n], parse);
    assert Join([w, n], ' ') == w + " " + n;
  }

  /** `break` is the long form of `b`: both take the same branch. */
  lemma BreakLongForm(a: string, parse: Parsers)
    requires ' ' !in a
    ensures Parse("break", parse) == Parse("b", parse) == BreakUsage
    ensures Parse("break " + a, parse) == Parse("b " + a, parse) == BreakAt(parse.hex(a) % 0x10000)
  {
    BreakWord("b", a, parse);
    BreakWord("break", a, parse);
    assert "b" + " " + a == "b " + a;
    assert "break" + " " + a == "break " + a;
  }

  lemma BreakWord(w: string, a: string, parse: Parsers)
    requires w == "b" || w == "break"
    requires ' ' !in a
    ensures Parse(w, parse) == BreakUsage
    ensures Parse(w + " " + a, parse) == BreakAt(parse.hex(a) % 0x10000)
  {
    ParseLine([w], parse);
    ParseLine([w, a], parse);
    assert Join([w, a], ' ') == w + " " + a;
  }

  /** `b` without an address only complains; `b a` installs the default
      pause point at `a & 0xFFFF`; `clear` empties the table. */
  lemma BreakCommands(s: CpuState, a: string, parse: Parsers)
    requires ' ' !in a
    ensures Command(s, "b", parse) == (s, true)
    ensures Command(s, "b " + a, parse) ==
            (s.(breakpoints := s.breakpoints[parse.hex(a) % 0x10000 := DefaultPausePoint]), true)
    ensures Command(s, "clear", parse) == (s.(breakpoints := map[]), true)
  {
    ParseLine(["b"], parse);
    ParseLine(["b", a], parse);
    assert Join(["b", a], ' ') == "b " + a;
    ParseLine(["clear"], parse);
  }

  /** `v` toggles tracing, so two of them change nothing. */
  lemma VerboseTwice(s: CpuState, parse: Parsers)
    ensures Command(s, "v", parse).0.verbose == !s.verbose
    ensures Command(Command(s, "v", parse).0, "v", parse) == (s, true)
  {
    ParseLine(["v"], parse);
  }

  /** `write a v` is the WriteAt branch with a as a 16-bit address and
      v & 0xFF as the byte, and the loop goes on. */
  lemma WriteCommand(s: CpuState, a: string, v: string, parse: Parsers)
    requires ' ' !in a && ' ' !in v
    ensures Command(s, "write " + a + " " + v, parse) ==
            (Apply(s, WriteAt(parse.hex(a) % 0x10000, parse.dec(v) % 0x100)), true)
  {
    ParseWrite(a, v, parse);
  }

  /** ... which stores the byte at that address and changes nothing else. */
  lemma ApplyWrite(s: CpuState, addr: u16, val: u8)
    requires |s.mem| == 0x10000
    ensures var r := Apply(s, WriteAt(addr, val));
            r.mem[addr] == val &&
            (forall b :: 0 <= b < 0x10000 && b != addr ==> r.mem[b] == s.mem[b]) &&
            r.(mem := s.mem) == s
  {
  }

  lemma ParseWrite(a: string, v: string, parse: Parsers)
    requires ' ' !in a && ' ' !in v
    ensures Tokens("write " + a + " " + v, ' ') == ["write", a, v]
    ensures Parse("write " + a + " " + v, parse) == WriteAt(parse.hex(a) % 0x10000, parse.dec(v) % 0x100)
  {
    JoinWrite(a, v);
    ParseLine(["write", a, v], parse);
    assert ParseWords(["write", a, v], parse) == WriteAt(parse.hex(a) % 0x10000, parse.dec(v) % 0x100);
  }

  lemma JoinWrite(a: string, v: string)
    ensures Join(["write", a, v], ' ') == "write " + a + " " + v
  {
    assert Join([a, v], ' ') == a + [' '] + v;
    assert Join(["write", a, v], ' ') == "write" + [' '] + Join([a, v], ' ');
    assert "write " + a + " " + v == "write" + [' '] + (a + [' '] + v);
  }

  /** `help`, `?`, `read` and any unknown command keep the loop going and
      change nothing. */
  lemma InertCommands(s: CpuState, line: string, parse: Parsers)
    requires line != "" && line[0] != ' '
    requires var cmd := CommandName(line);
             !IsResume(cmd) && cmd != "b" && cmd != "break" && cmd != "clear" && cmd != "v" &&
             cmd != "verbose" && cmd != "write" && cmd != "vblank" && cmd != "debug"
    ensures Command(s, line, parse) == (s, true)
  {
  }

  // ---------------------------------------------------------------------
  // The one-key pause of libgbc/cpu.cpp:262-298
  // ---------------------------------------------------------------------

  /** 1 << k */
  function Pow2(k: nat): (r: nat)
    ensures r >= 1
  {
    if k == 0 then 1 else 2 * Pow2(k - 1)
  }

  /** The switch on the key read by getchar(): only tracing, the step
      countdown and the running flag can change. */
  function KeyCommand(s: CpuState, c: int): (r: CpuState)
    ensures Valid(s) ==> Valid(r)
    ensures r.(verbose := s.verbose, breakSteps := s.breakSteps, breakStepsCnt := s.breakStepsCnt,
               running := s.running) == s
  {
    if c == '\n' as int || c == 'C' as int || c == 'c' as int then s
    else if '1' as int <= c <= '9' as int then
      BreakOnSteps(s.(verbose := true), Pow2(c - '1' as int))
    else if c == 'V' as int || c == 'v' as int then s.(verbose := !s.verbose)
    else if c == 'R' as int || c == 'r' as int then BreakOnSteps(s.(verbose := false), 0)
    else if c == 'Q' as int || c == 'q' as int then Stop(s)
    else s
  }

  /** Enter, C, c and every key the switch does not list change nothing. */
  lemma IdleKeys(s: CpuState, c: int)
    requires !('1' as int <= c <= '9' as int)
    requires c !in {'V' as int, 'v' as int, 'R' as int, 'r' as int, 'Q' as int, 'q' as int}
    ensures KeyCommand(s, c) == s
  {
  }

  /** V and v toggle tracing and change nothing else. */
  lemma VerboseKey(s: CpuState, c: int)
    requires c == 'V' as int || c == 'v' as int
    ensures KeyCommand(s, c) == s.(verbose := !s.verbose)
  {
  }

  /** R and r switch tracing off and end the step countdown. */
  lemma RunKey(s: CpuState, c: int)
    requires c == 'R' as int || c == 'r' as int
    ensures KeyCommand(s, c) == s.(verbose := false, breakSteps := 0, breakStepsCnt := 0)
  {
  }

  /** Q and q stop the CPU and change nothing else. */
  lemma QuitKey(s: CpuState, c: int)
    requires c == 'Q' as int || c == 'q' as int
    ensures KeyCommand(s, c) == s.(running := false)
  {
  }

  /** Keys 1 to 9 arm a countdown of 2^(key - 1) steps with tracing on, so
      key 9 gives 256 steps. */
  lemma DigitKeys(s: CpuState, d: nat)
    requires 1 <= d <= 9
    ensures var r := KeyCommand(s, '0' as int + d);
            r.verbose && r.breakStepsCnt == r.breakSteps == Pow2(d - 1) && r.breakSteps >= 1 &&
            r.running == s.running
    ensures KeyCommand(s, '9' as int).breakStepsCnt == 256
  {
    assert Pow2(8) == 256;
  }

  /** Two presses of V give back the tracing flag. */
  lemma VerboseKeyTwice(s: CpuState)
    ensures KeyCommand(KeyCommand(s, 'v' as int), 'V' as int) == s
  {
  }

  /** R undoes whatever a digit key armed. */
  lemma RunKeyAfterDigit(s: CpuState, d: int)
    requires '1' as int <= d <= '9' as int
    ensures KeyCommand(KeyCommand(s, d), 'R' as int) == KeyCommand(s, 'R' as int)
  {
  }

  // ---------------------------------------------------------------------
  // break_checks (libgbc/debug.cpp:208-227)
  // ---------------------------------------------------------------------

  /** Running a callback: the default pause point raises the pause flag;
      every call is recorded. */
  function CallHook(s: CpuState, h: Hook, opcode: u8): (r: CpuState)
    ensures r.events == s.events + [HookCalled(h, opcode)]
    ensures r.brk == (s.brk || h == PausePoint)
    ensures r.(events := s.events, brk := s.brk) == s
  {
    var t := s.(events := s.events + [HookCalled(h, opcode)]);
    if h == PausePoint then BreakNow(t) else t
  }

  /** break_checks calls the entry's callback without testing it, which
      would throw for an entry without one. */
  predicate HooksPresent(s: CpuState)
  {
    s.regs.pc in s.breakpoints ==> s.breakpoints[s.regs.pc].hook != NoHook
  }

  function BreakChecks(s: CpuState, parse: Parsers): (r: CpuState)
    requires Valid(s) && InputOk(s.input, parse)
    requires !BreakTime(s).1 ==> HooksPresent(s)
    ensures Valid(r)
  {
    var (s1, pause) := BreakTime(s);
    if pause then PauseLoop(s1.(brk := false), parse)
    else if s1.breakpoints != map[] && s1.regs.pc in s1.breakpoints then
      CallHook(s1, s1.breakpoints[s1.regs.pc].hook, s1.mem[s1.regs.pc])
    else s1
  }

  /** A callback runs only when break_time() said no and PC is in the
      table, and then exactly once. */
  lemma BreakChecksCallback(s: CpuState, parse: Parsers)
    requires Valid(s) && InputOk(s.input, parse)
    requires !BreakTime(s).1 ==> HooksPresent(s)
    ensures var r := BreakChecks(s, parse);
            var hit := !BreakTime(s).1 && s.regs.pc in s.breakpoints;
            (hit ==> r.events == s.events + [HookCalled(s.breakpoints[s.regs.pc].hook, s.mem[s.regs.pc])]) &&
            (!hit ==> |r.events| >= |s.events| && forall i :: |s.events| <= i < |r.events| ==> !r.events[i].HookCalled?)
  {
    var (s1, pause) := BreakTime(s);
    if pause {
      PauseLoopEvents(s1.(brk := false), parse);
    }
  }

  /** When it pauses, break_checks lowers the pause flag first; a session
      without `reset` leaves it down. */
  lemma BreakChecksClearsFlag(s: CpuState, parse: Parsers)
    requires Valid(s) && InputOk(s.input, parse)
    requires BreakTime(s).1
    requires NoReset(s.input)
    ensures !BreakChecks(s, parse).brk
  {
    PauseLoopNoReset(BreakTime(s).0.(brk := false), parse);
  }
}
