/** The CPU object of libgbc/cpu.cpp and libgbc/debug.cpp: fields updated in
    place by its methods, each method proved to take its state to the
    function of the same name on the state value (modules Machine, Debugger
    and Engine). */
module Gbc {

  import opened Machine
  import opened Debugger
  import Engine
  import Decode
  import Text

  /** The fields before the constructor's call to reset: the defaults the
      class declaration gives them (running, not halting, interrupts off,
      no countdowns, no pause, no breakpoints, tracing off). */
  function Boot(memory: seq<u8>, console: seq<string>): (s: CpuState)
    ensures s.running && s.halting == 0 && !s.ime && !s.brk && s.breakpoints == map[]
    ensures s.mem == memory && s.input == console && s.events == []
  {
    CpuState(Regs(0, 0, 0, 0, 0, 0), 0, 0, 0, true, 0, false, 0, 0, false, 0, 0, map[], false,
             memory, console, [])
  }

  class Cpu {
    var regs: Regs
    var cycles: nat
    var opcode: u8
    var lastFlags: u8
    var running: bool
    var halting: nat
    var ime: bool
    var enablePending: nat
    var disablePending: nat
    var brk: bool
    var breakSteps: int
    var breakStepsCnt: nat
    var breakpoints: map<u16, Breakpoint>
    var verbose: bool
    var mem: seq<u8>
    var input: seq<string>
    ghost var events: seq<Event>

    /** The fields as one state value. */
    ghost function State(): CpuState
      reads this
    {
      CpuState(regs, cycles, opcode, lastFlags, running, halting, ime, enablePending,
               disablePending, brk, breakSteps, breakStepsCnt, breakpoints, verbose, mem, input, events)
    }

    ghost predicate Valid()
      reads this
    {
      Machine.Valid(State())
    }

    /** CPU::CPU (libgbc/cpu.cpp:9-13): the defaults, then reset(). */
    constructor(memory: seq<u8>, console: seq<string>)
      requires |memory| == 0x10000
      ensures State() == Machine.Reset(Boot(memory, console))
      ensures Valid()
    {
      regs, cycles, opcode, lastFlags := Regs(0, 0, 0, 0, 0, 0), 0, 0, 0;
      running, halting, ime, enablePending, disablePending := true, 0, false, 0, 0;
      brk, breakSteps, breakStepsCnt, breakpoints, verbose := false, 0, 0, map[], false;
      mem, input, events := memory, console, [];
      new;
      Reset();
    }

    /** CPU::reset (libgbc/cpu.cpp:15-25). */
    method Reset()
      modifies this
      ensures State() == Machine.Reset(old(State()))
    {
      regs := regs.(af := 0x01B0);
      regs := regs.(bc := 0x0013);
      regs := regs.(de := 0x00D8);
      regs := regs.(hl := 0x014D);
      regs := regs.(sp := 0xFFFE);
      regs := regs.(pc := 0x0100);
      cycles := 0;
    }

    /** CPU::incr_cycles (libgbc/cpu.cpp:200-204). */
    method IncrCycles(count: int)
      requires count >= 0
      modifies this
      ensures State() == Machine.IncrCycles(old(State()), count)
    {
      cycles := cycles + count;
    }

    /** CPU::stop (libgbc/cpu.cpp:206-209). */
    method Stop()
      modifies this
      ensures State() == Machine.Stop(old(State()))
    {
      running := false;
    }

    /** CPU::wait (libgbc/cpu.cpp:211-214). */
    method Wait()
      modifies this
      ensures State() == Machine.Wait(old(State()))
    {
      halting := 1;
    }

    /** break_now: raise the pause flag. */
    method BreakNow()
      modifies this
      ensures State() == Machine.BreakNow(old(State()))
    {
      brk := true;
    }

    /** CPU::enable_interrupts (libgbc/cpu.cpp:101-103). */
    method EnableInterrupts()
      modifies this
      ensures State() == Machine.EnableInterrupts(old(State()))
    {
      enablePending := 2;
    }

    /** CPU::disable_interrupts (libgbc/cpu.cpp:104-106). */
    method DisableInterrupts()
      modifies this
      ensures State() == Machine.DisableInterrupts(old(State()))
    {
      disablePending := 2;
    }

    /** The two countdowns at the top of handle_interrupts
        (libgbc/cpu.cpp:111-118). */
    method Countdown()
      modifies this
      ensures State() == Machine.Countdown(old(State()))
    {
      if enablePending > 0 {
        enablePending := enablePending - 1;
        if enablePending == 0 { ime := true; }
      }
      if disablePending > 0 {
        disablePending := disablePending - 1;
        if disablePending == 0 { ime := false; }
      }
    }

    /** io.interrupt(v): the acknowledgement is recorded as an event, and
        the CPU pushes PC and jumps to the vector's address. */
    method Interrupt(v: Vector)
      requires Valid()
      modifies this
      ensures State() == Machine.Interrupt(old(State()), v)
    {
      var _ := PushAndJump(VectorAddress(v));
      events := events + [Interrupted(v)];
    }

    /** The vector chain of handle_interrupts (libgbc/cpu.cpp:129-134). */
    method Acknowledge(imask: bv8)
      requires Valid()
      modifies this
      ensures State() == Machine.Acknowledge(old(State()), imask)
    {
      if imask & 0x01 != 0 { Interrupt(VBlank); }
      else if imask & 0x02 != 0 { Interrupt(LcdStat); }
      else if imask & 0x04 != 0 { Interrupt(Timer); }
      else if imask & 0x08 != 0 { Interrupt(Serial); }
      else if imask & 0x10 != 0 { Interrupt(Joypad); }
      else { BreakNow(); }
    }

    /** CPU::handle_interrupts (libgbc/cpu.cpp:108-138), `imask` being
        io.interrupt_mask(). */
    method HandleInterrupts(imask: bv8)
      requires Valid()
      modifies this
      ensures State() == Machine.HandleInterrupts(old(State()), imask)
    {
      Countdown();
      ghost var c := State();
      if ime && imask != 0 {
        ime := false;
        enablePending := 0;
        disablePending := 0;
        ghost var d := State();
        assert d == c.(ime := false, enablePending := 0, disablePending := 0);
        Acknowledge(imask);
        assert State() == Machine.Acknowledge(d, imask);
        if halting > 0 { halting := halting - 1; }
      }
    }

    /** CPU::push_and_jump (libgbc/cpu.cpp:216-222). */
    method PushAndJump(address: u16) returns (ret: nat)
      requires Valid()
      modifies this
      ensures (State(), ret) == Machine.PushAndJump(old(State()), address)
    {
      regs := regs.(sp := Wrap16(regs.sp - 2));
      mem := mem[regs.sp := regs.pc % 0x100];
      mem := mem[Wrap16(regs.sp + 1) := regs.pc / 0x100];
      regs := regs.(pc := address);
      ret := 8;
    }

    /** CPU::break_time (libgbc/cpu.cpp:224-235). */
    method BreakTime() returns (b: bool)
      modifies this
      ensures (State(), b) == Machine.BreakTime(old(State()))
    {
      if brk { return true; }
      if breakStepsCnt != 0 {
        breakSteps := breakSteps - 1;
        if breakSteps <= 0 {
          breakSteps := breakStepsCnt;
          return true;
        }
      }
      return false;
    }

    /** CPU::break_on_steps (libgbc/cpu.cpp:236-241). */
    method BreakOnSteps(steps: int)
      requires steps >= 0
      modifies this
      ensures State() == Machine.BreakOnSteps(old(State()), steps)
    {
      breakStepsCnt := steps;
      breakSteps := steps;
    }

    /** default_pausepoint(addr): the pause-point breakpoint at `addr`. */
    method DefaultPausepoint(addr: u16)
      modifies this
      ensures State() == old(State()).(breakpoints := old(breakpoints)[addr := DefaultPausePoint])
    {
      breakpoints := breakpoints[addr := DefaultPausePoint];
    }

    /** bp.callback(cpu, opcode): recorded, and the default pause point
        calls break_now. */
    method CallHook(h: Hook, op: u8)
      modifies this
      ensures State() == Debugger.CallHook(old(State()), h, op)
    {
      events := events + [HookCalled(h, op)];
      if h == PausePoint { BreakNow(); }
    }

    /** The debugger part of CPU::execute (libgbc/cpu.cpp:53-67). */
    method BreakStage(op: u8, parse: Parsers)
      requires Valid() && InputOk(input, parse)
      modifies this
      ensures State() == Engine.BreakStage(old(State()), op, parse)
    {
      var pause := BreakTime();
      if pause {
        brk := false;
        PrintAndPause(this, op, parse);
      } else if breakpoints != map[] {
        if regs.pc in breakpoints {
          var bp := breakpoints[regs.pc];
          if bp.hook != NoHook { CallHook(bp.hook, op); }
          BreakOnSteps(bp.steps);
          verbose := bp.verbose;
        }
      }
    }

    /** CPU::execute (libgbc/cpu.cpp:51-98); the handler's cycles are
        `cost`, its own effect is not part of the model. */
    method Execute(op: u8, cost: nat, parse: Parsers) returns (ret: nat)
      requires Valid() && InputOk(input, parse)
      modifies this
      ensures (State(), ret) == Engine.Execute(old(State()), op, cost, parse)
    {
      BreakStage(op, parse);
      Issue(op);
      ret := cost;
    }

    /** Decode, PC + 1, the handler and the flags snapshot
        (libgbc/cpu.cpp:68-97). */
    method Issue(op: u8)
      requires Valid()
      modifies this
      ensures State() == Engine.Issue(old(State()), op)
    {
      var instr := Decode.DecodeIntended(op as bv8);
      ghost var s0 := State();
      regs := regs.(pc := Wrap16(regs.pc + 1));
      events := events + [Handled(op, instr, regs.pc)];
      assert State() == s0.(regs := s0.regs.(pc := Wrap16(s0.regs.pc + 1)),
                            events := s0.events + [Handled(op, instr, Wrap16(s0.regs.pc + 1))]);
      if verbose {
        if lastFlags != Flags(regs) {
          lastFlags := Flags(regs);
        }
      }
    }

    /** CPU::simulate (libgbc/cpu.cpp:27-49), `imask` being the interrupt
        mask at step 4 and `cost` the handler's cycles. */
    method Simulate(imask: bv8, cost: nat, parse: Parsers)
      requires Valid() && InputOk(input, parse)
      modifies this
      ensures State() == Engine.Simulate(old(State()), imask, cost, parse)
    {
      if running {
        opcode := mem[regs.pc];
        var time := Execute(opcode, cost, parse);
        IncrCycles(time);
      } else {
        if halting == 1 {
          halting := 0;
        }
        IncrCycles(4);
      }
      HandleInterrupts(imask);
    }

    /** CPU::break_checks (libgbc/debug.cpp:208-227). */
    method BreakChecks(parse: Parsers)
      requires Valid() && InputOk(input, parse)
      requires !Machine.BreakTime(State()).1 ==> HooksPresent(State())
      modifies this
      ensures State() == Debugger.BreakChecks(old(State()), parse)
    {
      var pause := BreakTime();
      if pause {
        brk := false;
        PrintAndPause(this, mem[regs.pc], parse);
        if !running { return; }
      } else if breakpoints != map[] {
        if regs.pc in breakpoints {
          var bp := breakpoints[regs.pc];
          CallHook(bp.hook, mem[regs.pc]);
          if !running { return; }
        }
      }
    }
  }

  /** The console prompt of libgbc/debug.cpp:165-186: read and run command
      lines until one says to resume. */
  method PrintAndPause(cpu: Cpu, op: u8, parse: Parsers)
    requires InputOk(cpu.input, parse)
    modifies cpu
    ensures cpu.State() == PauseLoop(old(cpu.State()), parse)
  {
    var keep := ExecuteCommands(cpu, parse);
    while keep
      invariant InputOk(cpu.input, parse)
      invariant keep ==> PauseLoop(cpu.State(), parse) == PauseLoop(old(cpu.State()), parse)
      invariant !keep ==> cpu.State() == PauseLoop(old(cpu.State()), parse)
      decreases |cpu.input| + (if keep then 1 else 0)
    {
      keep := ExecuteCommands(cpu, parse);
    }
  }

  /** The one-key prompt of libgbc/cpu.cpp:242-299, `key` being what the
      first getchar() returns. */
  method PauseOnKey(cpu: Cpu, op: u8, key: int)
    modifies cpu
    ensures cpu.State() == KeyCommand(old(cpu.State()), key)
  {
    if key == '\n' as int || key == 'C' as int || key == 'c' as int {
    } else if '1' as int <= key <= '9' as int {
      cpu.verbose := true;
      cpu.BreakOnSteps(Pow2(key - '1' as int));
    } else if key == 'V' as int || key == 'v' as int {
      cpu.verbose := !cpu.verbose;
    } else if key == 'R' as int || key == 'r' as int {
      cpu.verbose := false;
      cpu.BreakOnSteps(0);
    } else if key == 'Q' as int || key == 'q' as int {
      cpu.Stop();
    }
  }

  /** execute_commands (libgbc/debug.cpp:45-163): read one line from the
      console and carry it out; true when the prompt should be shown again. */
  method ExecuteCommands(cpu: Cpu, parse: Parsers) returns (keep: bool)
    requires InputOk(cpu.input, parse)
    modifies cpu
    ensures (cpu.State(), keep) == ReadCommand(old(cpu.State()), parse)
    ensures |cpu.input| <= |old(cpu.input)|
  {
    var text := "";
    if |cpu.input| > 0 {
      text := cpu.input[0];
      cpu.input := cpu.input[1..];
    }
    assert StepArgOk(text, parse);
    if text == "" { return false; }
    var params := Text.Split(text, ' ');
    keep := Dispatch(cpu, params, parse);
  }

  /** The command chain of execute_commands, once the line is split: the
      stepping and breakpoint commands (libgbc/debug.cpp:60-90). */
  method Dispatch(cpu: Cpu, params: seq<string>, parse: Parsers) returns (keep: bool)
    requires |params| >= 1
    requires params[0] in {"s", "step"} && |params| > 1 ==> parse.dec(params[1]) >= 0
    modifies cpu
    ensures cpu.State() == Apply(old(cpu.State()), ParseWords(params, parse))
    ensures keep == !Resumes(ParseWords(params, parse))
  {
    var cmd := params[0];
    if cmd == "c" || cmd == "continue" {
      cpu.BreakOnSteps(0);
      return false;
    }
    if cmd == "" {
      return false;
    } else if cmd == "s" || cmd == "step" {
      cpu.verbose := true;
      var steps := 1;
      if |params| > 1 { steps := parse.dec(params[1]); }
      cpu.BreakOnSteps(steps);
      return false;
    } else if cmd == "b" || cmd == "break" {
      if |params| < 2 { return true; }
      var hex := parse.hex(params[1]);
      cpu.DefaultPausepoint(hex % 0x10000);
      return true;
    } else if cmd == "clear" {
      cpu.breakpoints := map[];
      return true;
    } else {
      keep := DispatchControl(cpu, params, parse);
    }
  }

  /** The rest of the chain: tracing and run (libgbc/debug.cpp:91-101). */
  method DispatchControl(cpu: Cpu, params: seq<string>, parse: Parsers) returns (keep: bool)
    requires |params| >= 1
    requires params[0] !in {"c", "continue", "", "s", "step", "b", "break", "clear"}
    modifies cpu
    ensures cpu.State() == Apply(old(cpu.State()), ParseWords(params, parse))
    ensures keep == !Resumes(ParseWords(params, parse))
  {
    var cmd := params[0];
    if cmd == "v" || cmd == "verbose" {
      assert ParseWords(params, parse) == ToggleVerbose;
      cpu.verbose := !cpu.verbose;
      return true;
    } else if cmd == "r" || cmd == "run" {
      assert ParseWords(params, parse) == Run;
      cpu.verbose := false;
      cpu.BreakOnSteps(0);
      return false;
    } else {
      keep := DispatchMachine(cpu, params, parse);
    }
  }

  /** Then quit and reset (libgbc/debug.cpp:102-111). */
  method DispatchMachine(cpu: Cpu, params: seq<string>, parse: Parsers) returns (keep: bool)
    requires |params| >= 1
    requires params[0] !in {"c", "continue", "", "s", "step", "b", "break", "clear"}
    requires params[0] !in {"v", "verbose", "r", "run"}
    modifies cpu
    ensures cpu.State() == Apply(old(cpu.State()), ParseWords(params, parse))
    ensures keep == !Resumes(ParseWords(params, parse))
  {
    var cmd := params[0];
    if cmd == "q" || cmd == "quit" || cmd == "exit" {
      assert ParseWords(params, parse) == Quit;
      cpu.Stop();
      return false;
    } else if cmd == "reset" {
      assert ParseWords(params, parse) == ResetMachine;
      cpu.Reset();
      cpu.events := cpu.events + [MachineReset];
      cpu.BreakNow();
      return false;
    } else {
      keep := DispatchMemory(cpu, params, parse);
    }
  }

  /** The rest of the chain: memory access, the two machine calls, help and
      unknown commands (libgbc/debug.cpp:112-162). */
  method DispatchMemory(cpu: Cpu, params: seq<string>, parse: Parsers) returns (keep: bool)
    requires |params| >= 1
    requires params[0] !in {"c", "continue", "", "s", "step", "b", "break", "clear"}
    requires params[0] !in {"v", "verbose", "r", "run", "q", "quit", "exit", "reset"}
    modifies cpu
    ensures cpu.State() == Apply(old(cpu.State()), ParseWords(params, parse))
    ensures keep == !Resumes(ParseWords(params, parse))
  {
    var cmd := params[0];
    if cmd == "ld" || cmd == "read" {
      return true;
    } else if cmd == "write" {
      if |params| < 3 { return true; }
      var hex := parse.hex(params[1]);
      var value := parse.dec(params[2]) % 0x100;
      cpu.mem := Poke(cpu.mem, hex % 0x10000, value);
      return true;
    } else if cmd == "vblank" {
      cpu.events := cpu.events + [VBlankRendered];
      return true;
    } else if cmd == "debug" {
      cpu.events := cpu.events + [DebugInterrupt];
      return true;
    } else {
      return true;
    }
  }
}
