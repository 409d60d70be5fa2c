/** One instruction step of the CPU (CPU::execute and CPU::simulate of
    libgbc/cpu.cpp) as functions on the state value. The instruction
    handler is not part of this model: it is recorded as a Handled event
    (with the PC it starts from) and the cycles it reports are a parameter. */
module Engine {

  import opened Machine
  import opened Debugger
  import Decode

  /** The debugger part of execute: a pause when break_time() says so,
      otherwise the breakpoint entry for PC, if there is one. */
  function BreakStage(s: CpuState, opcode: u8, parse: Parsers): (r: CpuState)
    requires Valid(s) && InputOk(s.input, parse)
    ensures Valid(r) && InputOk(r.input, parse)
    ensures SameInterruptState(s, r)
  {
    var (s1, pause) := BreakTime(s);
    if pause then PauseLoop(s1.(brk := false), parse)
    else if s1.breakpoints != map[] && s1.regs.pc in s1.breakpoints then
      var bp := s1.breakpoints[s1.regs.pc];
      var t := if bp.hook != NoHook then CallHook(s1, bp.hook, opcode) else s1;
      BreakOnSteps(t, bp.steps).(verbose := bp.verbose)
    else s1
  }

  /** CPU::execute (libgbc/cpu.cpp:51-98) for an instruction whose handler
      takes `cost` cycles: the debugger stage, decode, PC + 1, the handler,
      then the flags snapshot when tracing. */
  function Execute(s: CpuState, opcode: u8, cost: nat, parse: Parsers): (r: (CpuState, nat))
    requires Valid(s) && InputOk(s.input, parse)
    ensures Valid(r.0) && InputOk(r.0.input, parse)
    ensures SameInterruptState(s, r.0)
    ensures r.1 == cost
  {
    (Issue(BreakStage(s, opcode, parse), opcode), cost)
  }

  /** The rest of execute (libgbc/cpu.cpp:68-97): decode, PC + 1, the
      handler (which starts from the advanced PC), then the flags snapshot
      when tracing. */
  function Issue(s: CpuState, opcode: u8): (r: CpuState)
    requires Valid(s)
    ensures Valid(r)
    ensures r.regs.pc == Wrap16(s.regs.pc + 1) && r.regs.(pc := s.regs.pc) == s.regs
    ensures r.events == s.events + [Handled(opcode, Decode.DecodeIntended(opcode as bv8), Wrap16(s.regs.pc + 1))]
    ensures r.(regs := s.regs, events := s.events, lastFlags := s.lastFlags) == s
  {
    var instr := Decode.DecodeIntended(opcode as bv8);
    var pc := Wrap16(s.regs.pc + 1);
    var s3 := s.(regs := s.regs.(pc := pc), events := s.events + [Handled(opcode, instr, pc)]);
    if s3.verbose && s3.lastFlags != Flags(s3.regs) then s3.(lastFlags := Flags(s3.regs)) else s3
  }

  /** CPU::simulate (libgbc/cpu.cpp:27-49) with `imask` the interrupt mask
      the I/O block reports and `cost` the cycles of the handler. */
  function Simulate(s: CpuState, imask: bv8, cost: nat, parse: Parsers): (r: CpuState)
    requires Valid(s) && InputOk(s.input, parse)
    ensures Valid(r) && InputOk(r.input, parse)
  {
    if s.running then
      var op := s.mem[s.regs.pc];
      var (t, time) := Execute(s.(opcode := op), op, cost, parse);
      HandleInterrupts(IncrCycles(t, time), imask)
    else
      var t := if s.halting == 1 then s.(halting := 0) else s;
      HandleInterrupts(IncrCycles(t, 4), imask)
  }

  // ---------------------------------------------------------------------
  // Properties of execute
  // ---------------------------------------------------------------------

  /** What the debugger stage changes: nothing beyond the countdown when
      there is neither a pause nor a breakpoint at PC; on a breakpoint hit,
      its callback once (when it has one), its step count and its tracing
      flag; registers never, unless the pause runs `reset`. */
  lemma BreakStageEffects(s: CpuState, opcode: u8, parse: Parsers)
    requires Valid(s) && InputOk(s.input, parse)
    ensures var r := BreakStage(s, opcode, parse);
            var (s1, pause) := BreakTime(s);
            var hit := !pause && s.regs.pc in s.breakpoints;
            (!pause && !hit ==> r == s1) &&
            (hit ==> var bp := s.breakpoints[s.regs.pc];
                     r.breakStepsCnt == bp.steps && r.breakSteps == bp.steps &&
                     r.verbose == bp.verbose && r.regs == s.regs &&
                     r.events == s.events + (if bp.hook != NoHook then [HookCalled(bp.hook, opcode)] else [])) &&
            (pause && NoReset(s.input) ==> r.regs == s.regs && !r.brk && r.cycles == s.cycles)
  {
    var (s1, pause) := BreakTime(s);
    if pause && NoReset(s.input) {
      PauseLoopNoReset(s1.(brk := false), parse);
    }
  }

  /** Without a `reset` at the prompt, the debugger stage leaves the
      registers alone. */
  lemma BreakStageKeepsRegs(s: CpuState, opcode: u8, parse: Parsers)
    requires Valid(s) && InputOk(s.input, parse)
    requires !BreakTime(s).1 || NoReset(s.input)
    ensures BreakStage(s, opcode, parse).regs == s.regs
  {
    BreakStageEffects(s, opcode, parse);
  }

  /** Breakpoint callbacks run only when break_time() was false: a pause
      adds no HookCalled event. */
  lemma PauseSkipsBreakpoints(s: CpuState, opcode: u8, parse: Parsers)
    requires Valid(s) && InputOk(s.input, parse)
    requires BreakTime(s).1
    ensures var r := BreakStage(s, opcode, parse);
            DebugExtends(s.events, r.events)
  {
    PauseLoopEvents(BreakTime(s).0.(brk := false), parse);
  }

  /** Execute advances PC by exactly one (mod 2^16) beyond what the debugger
      stage left before the handler runs: the handler gets the decoded
      instruction and starts from the advanced PC; the handler's cycles are
      returned. */
  lemma ExecuteStep(s: CpuState, opcode: u8, cost: nat, parse: Parsers)
    requires Valid(s) && InputOk(s.input, parse)
    ensures var b := BreakStage(s, opcode, parse);
            var (r, ret) := Execute(s, opcode, cost, parse);
            r.regs.pc == Wrap16(b.regs.pc + 1) &&
            r.regs.(pc := b.regs.pc) == b.regs &&
            r.events == b.events + [Handled(opcode, Decode.DecodeIntended(opcode as bv8), r.regs.pc)] &&
            ret == cost
  {
  }

  /** Without a `reset` at the prompt, Execute leaves PC one past where it
      started. */
  lemma ExecuteAdvancesPc(s: CpuState, opcode: u8, cost: nat, parse: Parsers)
    requires Valid(s) && InputOk(s.input, parse)
    requires !BreakTime(s).1 || NoReset(s.input)
    ensures Execute(s, opcode, cost, parse).0.regs.pc == Wrap16(s.regs.pc + 1)
  {
    BreakStageEffects(s, opcode, parse);
    ExecuteStep(s, opcode, cost, parse);
  }

  /** With tracing on, Execute leaves the flags snapshot equal to the flags;
      with it off, the snapshot is what the debugger stage left. */
  lemma ExecuteFlagsSnapshot(s: CpuState, opcode: u8, cost: nat, parse: Parsers)
    requires Valid(s) && InputOk(s.input, parse)
    ensures var b := BreakStage(s, opcode, parse);
            var r := Execute(s, opcode, cost, parse).0;
            (r.verbose ==> r.lastFlags == Flags(r.regs)) &&
            (!r.verbose ==> r.lastFlags == b.lastFlags)
  {
  }

  /** Execute leaves the cycle counter and the current opcode to its caller
      (a `reset` at the prompt aside). */
  lemma ExecuteKeepsCycles(s: CpuState, opcode: u8, cost: nat, parse: Parsers)
    requires Valid(s) && InputOk(s.input, parse)
    requires !BreakTime(s).1 || NoReset(s.input)
    ensures Execute(s, opcode, cost, parse).0.cycles == s.cycles
    ensures Execute(s, opcode, cost, parse).0.opcode == s.opcode
  {
    BreakStageEffects(s, opcode, parse);
    var (s1, pause) := BreakTime(s);
    if pause {
      PauseLoopOpcode(s1.(brk := false), parse);
    }
  }

  // ---------------------------------------------------------------------
  // Properties of simulate
  // ---------------------------------------------------------------------

  /** A stopped CPU fetches nothing and executes nothing: exactly 4 cycles
      pass, the current opcode stays, and a halting count of 1 is cleared
      before interrupts are handled. PC and memory stay unless an interrupt
      is taken, which pushes PC and jumps to the vector. */
  lemma SimulateStopped(s: CpuState, imask: bv8, cost: nat, parse: Parsers)
    requires Valid(s) && InputOk(s.input, parse)
    requires !s.running
    ensures var r := Simulate(s, imask, cost, parse);
            r.cycles == s.cycles + 4 && r.opcode == s.opcode &&
            r.halting == 0 && !r.running && r.input == s.input &&
            (!Dispatches(s, imask) ==> r.regs == s.regs && r.mem == s.mem && r.events == s.events) &&
            (Dispatches(s, imask) ==>
               var v := Priority(imask).value;
               r.regs.pc == VectorAddress(v) && Read16(r.mem, r.regs.sp) == s.regs.pc &&
               r.events == s.events + [Interrupted(v)])
  {
    var t := if s.halting == 1 then s.(halting := 0) else s;
    assert Dispatches(IncrCycles(t, 4), imask) == Dispatches(s, imask);
  }

  /** A running CPU fetches the byte at PC, hands it to its handler with PC
      one past it, and adds the handler's cycles to the counter (when no
      `reset` at a prompt intervenes). PC ends one past the byte, or at the
      vector when an interrupt is taken, with the return address pushed. */
  lemma SimulateRunning(s: CpuState, imask: bv8, cost: nat, parse: Parsers)
    requires Valid(s) && InputOk(s.input, parse)
    requires s.running
    requires !BreakTime(s).1 || NoReset(s.input)
    ensures var r := Simulate(s, imask, cost, parse);
            var op := s.mem[s.regs.pc];
            r.opcode == op &&
            r.cycles == s.cycles + cost &&
            (!Dispatches(s, imask) ==> r.regs.pc == Wrap16(s.regs.pc + 1)) &&
            (Dispatches(s, imask) ==> r.regs.pc == VectorAddress(Priority(imask).value) &&
                                       Read16(r.mem, r.regs.sp) == Wrap16(s.regs.pc + 1)) &&
            Handled(op, Decode.DecodeIntended(op as bv8), Wrap16(s.regs.pc + 1)) in r.events
  {
    SimulateRunningCycles(s, imask, cost, parse);
    SimulateRunningFetch(s, imask, cost, parse);
    SimulateRunningPc(s, imask, cost, parse);
    SimulateRunningHandledAt(s, imask, cost, parse);
  }

  /** The handler's cycles are added to the counter. */
  lemma SimulateRunningCycles(s: CpuState, imask: bv8, cost: nat, parse: Parsers)
    requires Valid(s) && InputOk(s.input, parse)
    requires s.running
    requires !BreakTime(s).1 || NoReset(s.input)
    ensures Simulate(s, imask, cost, parse).cycles == s.cycles + cost
  {
    var op := s.mem[s.regs.pc];
    var s0 := s.(opcode := op);
    assert BreakTime(s0).1 == BreakTime(s).1;
    SimulateRunningUnfold(s, imask, cost, parse);
    ExecuteKeepsCycles(s0, op, cost, parse);
  }

  /** The current opcode is the byte at PC. */
  lemma SimulateRunningFetch(s: CpuState, imask: bv8, cost: nat, parse: Parsers)
    requires Valid(s) && InputOk(s.input, parse)
    requires s.running
    requires !BreakTime(s).1 || NoReset(s.input)
    ensures Simulate(s, imask, cost, parse).opcode == s.mem[s.regs.pc]
  {
    var op := s.mem[s.regs.pc];
    var s0 := s.(opcode := op);
    assert BreakTime(s0).1 == BreakTime(s).1;
    SimulateRunningUnfold(s, imask, cost, parse);
    ExecuteKeepsCycles(s0, op, cost, parse);
  }

  /** PC moves one past the fetched byte, unless an interrupt is taken:
      then PC is the vector's address and the word on top of the stack is
      the address one past the fetched byte. */
  lemma SimulateRunningPc(s: CpuState, imask: bv8, cost: nat, parse: Parsers)
    requires Valid(s) && InputOk(s.input, parse)
    requires s.running
    requires !BreakTime(s).1 || NoReset(s.input)
    ensures var r := Simulate(s, imask, cost, parse);
            (!Dispatches(s, imask) ==> r.regs.pc == Wrap16(s.regs.pc + 1)) &&
            (Dispatches(s, imask) ==> r.regs.pc == VectorAddress(Priority(imask).value) &&
                                       Read16(r.mem, r.regs.sp) == Wrap16(s.regs.pc + 1))
  {
    var op := s.mem[s.regs.pc];
    var s0 := s.(opcode := op);
    assert BreakTime(s0).1 == BreakTime(s).1;
    var t := Execute(s0, op, cost, parse).0;
    SimulateRunningUnfold(s, imask, cost, parse);
    ExecuteAdvancesPc(s0, op, cost, parse);
    assert t.regs.pc == Wrap16(s.regs.pc + 1);
    var u := IncrCycles(t, cost);
    assert u.regs == t.regs;
    assert Dispatches(u, imask) == Dispatches(s, imask);
  }

  /** The fetched byte is handed to the handler of its decoded class, with
      PC one past where the debugger stage left it, even when a `reset` at
      the prompt intervenes. */
  lemma SimulateRunningHandled(s: CpuState, imask: bv8, cost: nat, parse: Parsers)
    requires Valid(s) && InputOk(s.input, parse)
    requires s.running
    ensures var op := s.mem[s.regs.pc];
            var b := BreakStage(s.(opcode := op), op, parse);
            Handled(op, Decode.DecodeIntended(op as bv8), Wrap16(b.regs.pc + 1)) in Simulate(s, imask, cost, parse).events
  {
    var op := s.mem[s.regs.pc];
    var s0 := s.(opcode := op);
    SimulateRunningUnfold(s, imask, cost, parse);
    HandledSurvives(s0, op, cost, parse, imask);
  }

  /** Without a `reset` at the prompt, the handler starts one past the
      fetched byte. */
  lemma SimulateRunningHandledAt(s: CpuState, imask: bv8, cost: nat, parse: Parsers)
    requires Valid(s) && InputOk(s.input, parse)
    requires s.running
    requires !BreakTime(s).1 || NoReset(s.input)
    ensures var op := s.mem[s.regs.pc];
            Handled(op, Decode.DecodeIntended(op as bv8), Wrap16(s.regs.pc + 1)) in Simulate(s, imask, cost, parse).events
  {
    var op := s.mem[s.regs.pc];
    var s0 := s.(opcode := op);
    assert BreakTime(s0).1 == BreakTime(s).1;
    BreakStageKeepsRegs(s0, op, parse);
    SimulateRunningHandled(s, imask, cost, parse);
  }

  /** The handler call that execute logs last is still in the log after
      the cycles are added and interrupts are handled. */
  lemma HandledSurvives(s: CpuState, opcode: u8, cost: nat, parse: Parsers, imask: bv8)
    requires Valid(s) && InputOk(s.input, parse)
    ensures var u := IncrCycles(Execute(s, opcode, cost, parse).0, cost);
            Handled(opcode, Decode.DecodeIntended(opcode as bv8), Wrap16(BreakStage(s, opcode, parse).regs.pc + 1))
              in HandleInterrupts(u, imask).events
  {
    var u := IncrCycles(Execute(s, opcode, cost, parse).0, cost);
    ExecuteLastEvent(s, opcode, cost, parse);
    InterruptsKeep(u, imask);
  }

  /** The last event of execute is the handler call. */
  lemma ExecuteLastEvent(s: CpuState, opcode: u8, cost: nat, parse: Parsers)
    requires Valid(s) && InputOk(s.input, parse)
    ensures var u := IncrCycles(Execute(s, opcode, cost, parse).0, cost);
            Valid(u) && |u.events| >= 1 &&
            u.events[|u.events| - 1] ==
              Handled(opcode, Decode.DecodeIntended(opcode as bv8), Wrap16(BreakStage(s, opcode, parse).regs.pc + 1))
  {
  }

  /** The running branch of simulate, step by step. */
  lemma SimulateRunningUnfold(s: CpuState, imask: bv8, cost: nat, parse: Parsers)
    requires Valid(s) && InputOk(s.input, parse)
    requires s.running
    ensures var op := s.mem[s.regs.pc];
            Simulate(s, imask, cost, parse) ==
            HandleInterrupts(IncrCycles(Execute(s.(opcode := op), op, cost, parse).0, cost), imask)
  {
  }

  /** handle_interrupts leaves opcode and cycles, and keeps every event
      already logged. */
  lemma InterruptsKeep(t: CpuState, imask: bv8)
    requires Valid(t) && |t.events| >= 1
    ensures var r := HandleInterrupts(t, imask);
            r.opcode == t.opcode && r.cycles == t.cycles &&
            |t.events| <= |r.events| && r.events[..|t.events|] == t.events &&
            t.events[|t.events| - 1] in r.events
  {
    var r := HandleInterrupts(t, imask);
    assert r.events[|t.events| - 1] == t.events[|t.events| - 1];
  }
}
