/** The state of the CPU of libgbc and the transitions of libgbc/cpu.cpp and
    libgbc/debug.cpp that change it, as functions on a state value. The class
    `Gbc.Cpu` holds the same state in fields and proves each of its methods
    against the function of the same name here. */
module Machine {

  import Decode
  import opened Wrappers

  type u8 = x: int | 0 <= x < 0x100
  type u16 = x: int | 0 <= x < 0x10000

  /** `uint16_t` arithmetic: the result taken modulo 2^16. */
  function Wrap16(x: int): u16
  {
    x % 0x10000
  }

  /** The register file; AF's low byte is the flags register. */
  datatype Regs = Regs(af: u16, bc: u16, de: u16, hl: u16, sp: u16, pc: u16)

  function Flags(r: Regs): u8
  {
    r.af % 0x100
  }

  /** The five interrupt sources in priority order, and their mask bits. */
  datatype Vector = VBlank | LcdStat | Timer | Serial | Joypad

  function Rank(v: Vector): nat
  {
    match v
    case VBlank => 0
    case LcdStat => 1
    case Timer => 2
    case Serial => 3
    case Joypad => 4
  }

  function VectorBit(v: Vector): bv8
  {
    match v
    case VBlank => 0x01
    case LcdStat => 0x02
    case Timer => 0x04
    case Serial => 0x08
    case Joypad => 0x10
  }

  /** The callback of a breakpoint entry: none, the one `default_pausepoint`
      installs (it calls `break_now`), or a callback supplied by the embedder. */
  datatype Hook = NoHook | PausePoint | External(id: nat)

  /** A breakpoint entry: callback, step count and verbose flag to install. */
  datatype Breakpoint = Breakpoint(hook: Hook, steps: nat, verbose: bool)

  const DefaultPausePoint := Breakpoint(PausePoint, 0, false)

  /** Calls into collaborators outside the CPU, recorded in order. */
  datatype Event =
    | Interrupted(vector: Vector)          // io.interrupt(v)
    | HookCalled(hook: Hook, opcode: u8)   // bp.callback(cpu, opcode)
    | Handled(opcode: u8, instr: Decode.Instr, pc: u16)   // instr.handler(cpu, opcode), PC on entry
    | VBlankRendered                       // gpu.render_and_vblank()
    | DebugInterrupt                       // io.debugint.callback(...)
    | MachineReset                         // the other subsystems of machine().reset()

  /** Everything the core reads or writes. `mem` stands for the memory
      collaborator, `input` for the console lines not yet read, `verbose` for
      the machine's verbose_instructions flag and `events` for the calls into
      collaborators. */
  datatype CpuState = CpuState(
    regs: Regs,
    cycles: nat,             // m_cycles_total
    opcode: u8,              // m_cur_opcode
    lastFlags: u8,           // m_last_flags
    running: bool,           // m_running, read by is_running()
    halting: nat,            // m_halting
    ime: bool,               // m_intr_master_enable, read by ime()
    enablePending: nat,      // m_intr_enable_pending
    disablePending: nat,     // m_intr_disable_pending
    brk: bool,               // m_break, set by break_now()
    breakSteps: int,         // m_break_steps
    breakStepsCnt: nat,      // m_break_steps_cnt
    breakpoints: map<u16, Breakpoint>,
    verbose: bool,
    mem: seq<u8>,
    input: seq<string>,
    events: seq<Event>)

  /** The step countdown is either off (both counts 0) or has between 1 and
      `breakStepsCnt` steps left. */
  predicate StepsInv(s: CpuState)
  {
    0 <= s.breakSteps <= s.breakStepsCnt && (s.breakStepsCnt > 0 ==> s.breakSteps >= 1)
  }

  /** What every operation preserves. */
  predicate Valid(s: CpuState)
  {
    |s.mem| == 0x10000 && s.halting <= 1 && s.enablePending <= 2 && s.disablePending <= 2 &&
    StepsInv(s)
  }

  const PowerOn := Regs(0x01B0, 0x0013, 0x00D8, 0x014D, 0xFFFE, 0x0100)

  /** CPU::reset (libgbc/cpu.cpp:15-25): power-on registers, cycle counter 0. */
  function Reset(s: CpuState): (r: CpuState)
    ensures r.regs.af == 0x01B0 && r.regs.bc == 0x0013 && r.regs.de == 0x00D8
    ensures r.regs.hl == 0x014D && r.regs.sp == 0xFFFE && r.regs.pc == 0x0100
    ensures r.cycles == 0
    ensures r.(regs := s.regs, cycles := s.cycles) == s
    ensures Valid(s) ==> Valid(r)
  {
    s.(regs := PowerOn, cycles := 0)
  }

  lemma ResetIdempotent(s: CpuState)
    ensures Reset(Reset(s)) == Reset(s)
  {
  }

  /** CPU::incr_cycles (libgbc/cpu.cpp:200-204); the assert is the requires. */
  function IncrCycles(s: CpuState, count: int): (r: CpuState)
    requires count >= 0
    ensures r.cycles == s.cycles + count && r.cycles >= s.cycles
    ensures r.(cycles := s.cycles) == s
  {
    s.(cycles := s.cycles + count)
  }

  /** CPU::stop (libgbc/cpu.cpp:206-209). */
  function Stop(s: CpuState): (r: CpuState)
    ensures !r.running && r.(running := s.running) == s
  {
    s.(running := false)
  }

  /** CPU::wait (libgbc/cpu.cpp:211-214). */
  function Wait(s: CpuState): (r: CpuState)
    ensures r.halting == 1 && r.(halting := s.halting) == s
  {
    s.(halting := 1)
  }

  /** CPU::break_now, declared in cpu.hpp: raise the one-shot pause flag. */
  function BreakNow(s: CpuState): (r: CpuState)
    ensures r.brk && r.(brk := s.brk) == s
  {
    s.(brk := true)
  }

  // ---------------------------------------------------------------------
  // Step countdown: break_on_steps and break_time
  // (libgbc/debug.cpp:188-206, the same text as libgbc/cpu.cpp:224-241)
  // ---------------------------------------------------------------------

  /** break_on_steps: configured and remaining count both become `steps`. */
  function BreakOnSteps(s: CpuState, steps: int): (r: CpuState)
    requires steps >= 0
    ensures r.breakStepsCnt == steps && r.breakSteps == steps
    ensures r.(breakSteps := s.breakSteps, breakStepsCnt := s.breakStepsCnt) == s
    ensures StepsInv(r)
  {
    s.(breakStepsCnt := steps, breakSteps := steps)
  }

  /** break_time: true when the pause flag is up, or when the countdown runs
      out, in which case it is re-armed to the configured count. */
  function BreakTime(s: CpuState): (r: (CpuState, bool))
    ensures r.0.(breakSteps := s.breakSteps) == s
    ensures s.brk ==> r == (s, true)
    ensures !s.brk && s.breakStepsCnt == 0 ==> r == (s, false)
    ensures StepsInv(s) ==> StepsInv(r.0)
  {
    if s.brk then (s, true)
    else if s.breakStepsCnt != 0 then
      var left := s.breakSteps - 1;
      if left <= 0 then (s.(breakSteps := s.breakStepsCnt), true)
      else (s.(breakSteps := left), false)
    else (s, false)
  }

  /** The answers of `k` successive calls of break_time, and the state after. */
  function BreakTimes(s: CpuState, k: nat): (r: (CpuState, seq<bool>))
    ensures |r.1| == k
    decreases k
  {
    if k == 0 then (s, [])
    else
      var (s1, b) := BreakTime(s);
      var (s2, bs) := BreakTimes(s1, k - 1);
      (s2, [b] + bs)
  }

  /** `k` answers false. */
  function Falses(k: nat): (r: seq<bool>)
    ensures |r| == k && forall j :: 0 <= j < k ==> !r[j]
  {
    if k == 0 then [] else Falses(k - 1) + [false]
  }

  /** With the flag down and the countdown at `m`, the next `m` calls answer
      false `m - 1` times and then true, and leave the countdown re-armed at
      the configured count. */
  lemma {:induction false} CountdownRunsOut(s: CpuState)
    requires !s.brk && s.breakStepsCnt > 0 && StepsInv(s)
    ensures BreakTimes(s, s.breakSteps) ==
            (s.(breakSteps := s.breakStepsCnt), Falses(s.breakSteps - 1) + [true])
    decreases s.breakSteps
  {
    var m := s.breakSteps;
    var (s1, b) := BreakTime(s);
    if m == 1 {
      assert BreakTimes(s, 1) == (s1, [b] + []);
      assert b && s1 == s.(breakSteps := s.breakStepsCnt);
      assert Falses(0) + [true] == [b] + [];
    } else {
      assert !b && s1 == s.(breakSteps := m - 1);
      CountdownRunsOut(s1);
      assert Falses(m - 1) + [true] == [false] + (Falses(m - 2) + [true]) by {
        FalsesCons(m - 2);
      }
    }
  }

  lemma {:induction false} FalsesCons(k: nat)
    ensures Falses(k + 1) == [false] + Falses(k)
    decreases k
  {
    if k > 0 {
      FalsesCons(k - 1);
    }
  }

  /** Running `a` calls and then `b` calls is running `a + b` calls. */
  lemma {:induction false} BreakTimesAdd(s: CpuState, a: nat, b: nat)
    ensures var (t, x) := BreakTimes(s, a);
            var (u, y) := BreakTimes(t, b);
            BreakTimes(s, a + b) == (u, x + y)
    decreases a
  {
    if a > 0 {
      var (s1, c) := BreakTime(s);
      BreakTimesAdd(s1, a - 1, b);
      var (t, x) := BreakTimes(s1, a - 1);
      var (u, y) := BreakTimes(t, b);
      assert [c] + (x + y) == ([c] + x) + y;
    } else {
      var y := BreakTimes(s, b).1;
      assert [] + y == y;
    }
  }

  /** The answers of `c` full periods of `n` calls. */
  function Periods(n: nat, c: nat): (r: seq<bool>)
    requires n > 0
  {
    if c == 0 then [] else Periods(n, c - 1) + (Falses(n - 1) + [true])
  }

  /** break_on_steps(n) with n > 0 and the flag down: every block of `n`
      calls answers false `n - 1` times and then true, and each block ends
      with the countdown back at `n`, so after `c * n` calls the answers are
      `c` such blocks and the state is the armed state again. */
  lemma {:induction false} BreakOnStepsPeriodic(s: CpuState, n: nat, c: nat)
    requires !s.brk && n > 0
    ensures BreakTimes(BreakOnSteps(s, n), c * n) == (BreakOnSteps(s, n), Periods(n, c))
    decreases c
  {
    var armed := BreakOnSteps(s, n);
    if c > 0 {
      BreakOnStepsPeriodic(s, n, c - 1);
      assert c * n == (c - 1) * n + n;
      BreakTimesAdd(armed, (c - 1) * n, n);
      CountdownRunsOut(armed);
      assert armed.(breakSteps := armed.breakStepsCnt) == armed;
    }
  }

  // ---------------------------------------------------------------------
  // Interrupts (libgbc/cpu.cpp:100-138)
  // ---------------------------------------------------------------------

  /** enable_interrupts: the enable countdown is (re)started at 2. */
  function EnableInterrupts(s: CpuState): (r: CpuState)
    ensures r.enablePending == 2 && r.(enablePending := s.enablePending) == s
  {
    s.(enablePending := 2)
  }

  /** disable_interrupts: the disable countdown is (re)started at 2. */
  function DisableInterrupts(s: CpuState): (r: CpuState)
    ensures r.disablePending == 2 && r.(disablePending := s.disablePending) == s
  {
    s.(disablePending := 2)
  }

  /** The two countdowns of handle_interrupts: each running one is
      decremented and sets the master enable when it reaches 0; the disable
      countdown is looked at second. */
  function Countdown(s: CpuState): (r: CpuState)
    ensures r.enablePending == if s.enablePending > 0 then s.enablePending - 1 else 0
    ensures r.disablePending == if s.disablePending > 0 then s.disablePending - 1 else 0
    ensures r.ime == if s.disablePending == 1 then false
                     else if s.enablePending == 1 then true
                     else s.ime
    ensures r.(ime := s.ime, enablePending := s.enablePending, disablePending := s.disablePending) == s
  {
    var e := if s.enablePending > 0 then
               var left := s.enablePending - 1;
               s.(enablePending := left, ime := if left == 0 then true else s.ime)
             else s;
    if e.disablePending > 0 then
      var left := e.disablePending - 1;
      e.(disablePending := left, ime := if left == 0 then false else e.ime)
    else e
  }

  /** The source handle_interrupts dispatches: the lowest set bit among bits
      0-4 of the mask, or none when those bits are clear. */
  function Priority(imask: bv8): (r: Option<Vector>)
    ensures r.Some? ==> imask & VectorBit(r.value) != 0
    ensures r.Some? ==> forall v :: Rank(v) < Rank(r.value) ==> imask & VectorBit(v) == 0
    ensures r.None? <==> imask & 0x1F == 0
  {
    if imask & 0x01 != 0 then Some(VBlank)
    else if imask & 0x02 != 0 then Some(LcdStat)
    else if imask & 0x04 != 0 then Some(Timer)
    else if imask & 0x08 != 0 then Some(Serial)
    else if imask & 0x10 != 0 then Some(Joypad)
    else None
  }

  /** The fixed addresses the five interrupts jump to (the I/O block's
      interrupt table): 0x40, 0x48, 0x50, 0x58 and 0x60. */
  function VectorAddress(v: Vector): u16
  {
    0x40 + 8 * Rank(v)
  }

  /** io.interrupt(v): the request is acknowledged to the I/O block (the
      event) and the CPU pushes PC and jumps to the vector's address with
      push_and_jump. */
  function Interrupt(s: CpuState, v: Vector): (r: CpuState)
    requires Valid(s)
    ensures Valid(r)
    ensures r.events == s.events + [Interrupted(v)]
    ensures r.regs.pc == VectorAddress(v) && r.regs.sp == Wrap16(s.regs.sp - 2)
    ensures Read16(r.mem, r.regs.sp) == s.regs.pc
    ensures r.regs.(sp := s.regs.sp, pc := s.regs.pc) == s.regs
    ensures forall b :: 0 <= b < 0x10000 && b != r.regs.sp && b != Wrap16(r.regs.sp + 1) ==> r.mem[b] == s.mem[b]
    ensures r.(regs := s.regs, mem := s.mem, events := s.events) == s
  {
    var t := PushAndJump(s, VectorAddress(v)).0;
    t.(events := t.events + [Interrupted(v)])
  }

  /** The vector chain of handle_interrupts: the interrupt of highest
      priority in the mask is taken, or, when bits 0-4 are all clear,
      execution pauses instead. */
  function Acknowledge(s: CpuState, imask: bv8): (r: CpuState)
    requires Valid(s)
    ensures Valid(r)
    ensures Priority(imask).Some? ==>
              var v := Priority(imask).value;
              r.events == s.events + [Interrupted(v)] && r.regs.pc == VectorAddress(v) &&
              r.regs.sp == Wrap16(s.regs.sp - 2) && Read16(r.mem, r.regs.sp) == s.regs.pc &&
              r.brk == s.brk
    ensures Priority(imask).None? ==> r.brk && r.events == s.events && r.regs == s.regs && r.mem == s.mem
    ensures r.(regs := s.regs, mem := s.mem, events := s.events, brk := s.brk) == s
  {
    match Priority(imask)
    case Some(v) => Interrupt(s, v)
    case None => BreakNow(s)
  }

  /** Whether handle_interrupts takes an interrupt: IME, once the countdowns
      have run, is up and one of bits 0-4 of the mask is set. */
  predicate Dispatches(s: CpuState, imask: bv8)
  {
    Countdown(s).ime && imask & 0x1F != 0
  }

  /** IME and the two countdowns, which no debugger command touches. */
  predicate SameInterruptState(a: CpuState, b: CpuState)
  {
    a.ime == b.ime && a.enablePending == b.enablePending && a.disablePending == b.disablePending
  }

  /** handle_interrupts with `imask` the value of io.interrupt_mask(). */
  function HandleInterrupts(s: CpuState, imask: bv8): (r: CpuState)
    requires Valid(s)
    ensures Valid(r)
    ensures r.(ime := s.ime, enablePending := s.enablePending, disablePending := s.disablePending,
               brk := s.brk, halting := s.halting, events := s.events, regs := s.regs, mem := s.mem) == s
    ensures !Dispatches(s, imask) ==> r.events == s.events && r.regs == s.regs && r.mem == s.mem
    ensures Dispatches(s, imask) ==>
              var v := Priority(imask).value;
              r.events == s.events + [Interrupted(v)] && r.regs.pc == VectorAddress(v) &&
              r.regs.sp == Wrap16(s.regs.sp - 2) && Read16(r.mem, r.regs.sp) == s.regs.pc
  {
    var c := Countdown(s);
    if c.ime && imask != 0 then
      var d := c.(ime := false, enablePending := 0, disablePending := 0);
      var e := Acknowledge(d, imask);
      e.(halting := if e.halting > 0 then e.halting - 1 else 0)
    else c
  }

  /** A dispatch, when IME (after the countdowns) is up and the mask is not
      zero: IME drops, both countdowns are cancelled, exactly one vector is
      taken (the highest-priority pending one: PC pushed, PC set to its
      address) or, with none of bits 0-4 set, a pause is forced instead; a
      halt count is used up. */
  lemma Dispatch(s: CpuState, imask: bv8)
    requires Valid(s)
    requires Countdown(s).ime && imask != 0
    ensures var r := HandleInterrupts(s, imask);
            && !r.ime && r.enablePending == 0 && r.disablePending == 0
            && r.halting == (if s.halting > 0 then s.halting - 1 else 0)
            && (imask & 0x1F != 0 ==>
                  exists v :: r.events == s.events + [Interrupted(v)] && imask & VectorBit(v) != 0
                              && r.regs.pc == VectorAddress(v)
                              && forall w :: Rank(w) < Rank(v) ==> imask & VectorBit(w) == 0)
            && (imask & 0x1F != 0 ==> r.brk == s.brk && Read16(r.mem, r.regs.sp) == s.regs.pc)
            && (imask & 0x1F == 0 ==> r.brk && r.events == s.events && r.regs == s.regs && r.mem == s.mem)
            && r.(ime := s.ime, enablePending := s.enablePending, disablePending := s.disablePending,
                  halting := s.halting, events := s.events, brk := s.brk, regs := s.regs, mem := s.mem) == s
  {
    var p := Priority(imask);
    if p.Some? {
      var r := HandleInterrupts(s, imask);
      assert r.events == s.events + [Interrupted(p.value)] && r.regs.pc == VectorAddress(p.value);
    }
  }

  /** Without a dispatch the call only runs the countdowns. */
  lemma NoDispatch(s: CpuState, imask: bv8)
    requires Valid(s)
    requires !Countdown(s).ime || imask == 0
    ensures HandleInterrupts(s, imask) == Countdown(s)
  {
  }

  /** With vblank and timer both pending, vblank is taken and the timer bit
      is not acknowledged. */
  lemma VBlankBeforeTimer(s: CpuState)
    requires Valid(s)
    requires Countdown(s).ime
    ensures HandleInterrupts(s, 0x05).events == s.events + [Interrupted(VBlank)]
    ensures HandleInterrupts(s, 0x05).regs.pc == 0x40
  {
  }

  /** enable_interrupts takes effect on exactly the second following call of
      handle_interrupts (no disable pending, no dispatch in between). */
  lemma EnableTakesTwoCalls(s: CpuState, m1: bv8, m2: bv8)
    requires Valid(s)
    requires s.disablePending == 0 && (!s.ime || m1 == 0)
    ensures var s1 := HandleInterrupts(EnableInterrupts(s), m1);
            && s1.ime == s.ime && s1.enablePending == 1
            && Countdown(s1).ime
            && (m2 == 0 ==> HandleInterrupts(s1, m2).ime)
  {
  }

  /** disable_interrupts takes effect on exactly the second following call. */
  lemma DisableTakesTwoCalls(s: CpuState, m1: bv8, m2: bv8)
    requires Valid(s)
    requires s.enablePending == 0 && (!s.ime || m1 == 0)
    ensures var s1 := HandleInterrupts(DisableInterrupts(s), m1);
            && s1.ime == s.ime && s1.disablePending == 1
            && !HandleInterrupts(s1, m2).ime
  {
  }

  /** When both countdowns run out in the same call, the disable wins. */
  lemma DisableWinsTie(s: CpuState, imask: bv8)
    requires Valid(s)
    requires s.enablePending == 1 && s.disablePending == 1
    ensures !HandleInterrupts(s, imask).ime
  {
  }

  /** A request does not cancel the other countdown: enable then disable in
      the same step leaves IME false two steps later. */
  lemma EnableThenDisable(s: CpuState, m1: bv8, m2: bv8)
    requires Valid(s)
    ensures var s0 := DisableInterrupts(EnableInterrupts(s));
            !HandleInterrupts(HandleInterrupts(s0, m1), m2).ime
  {
  }

  // ---------------------------------------------------------------------
  // The stack push done when an interrupt is taken (libgbc/cpu.cpp:216-222)
  // ---------------------------------------------------------------------

  /** memory().write16 as two byte writes, low byte first, with the address
      of the high byte wrapping at 2^16. */
  function Write16(m: seq<u8>, a: u16, v: u16): (r: seq<u8>)
    requires |m| == 0x10000
    ensures |r| == 0x10000
  {
    m[a := v % 0x100][Wrap16(a + 1) := v / 0x100]
  }

  /** memory().read16, the same byte order. */
  function Read16(m: seq<u8>, a: u16): u16
    requires |m| == 0x10000
  {
    (m[a] as int) + 0x100 * (m[Wrap16(a + 1)] as int)
  }

  lemma ReadWrite16(m: seq<u8>, a: u16, v: u16)
    requires |m| == 0x10000
    ensures Read16(Write16(m, a, v), a) == v
    ensures forall b :: 0 <= b < 0x10000 && b != a && b != Wrap16(a + 1) ==> Write16(m, a, v)[b] == m[b]
  {
  }

  /** push_and_jump: SP drops by 2 (mod 2^16), the old PC is stored at the
      new SP, PC becomes the target, and the call costs 8 cycles. */
  function PushAndJump(s: CpuState, address: u16): (r: (CpuState, nat))
    requires Valid(s)
    ensures var t := r.0;
            && Valid(t)
            && t.regs.sp == Wrap16(s.regs.sp - 2)
            && Read16(t.mem, t.regs.sp) == s.regs.pc
            && t.regs.pc == address
            && t.regs.(sp := s.regs.sp, pc := s.regs.pc) == s.regs
            && (forall b :: 0 <= b < 0x10000 && b != t.regs.sp && b != Wrap16(t.regs.sp + 1) ==> t.mem[b] == s.mem[b])
            && t.(regs := s.regs, mem := s.mem) == s
            && r.1 == 8
  {
    var sp := Wrap16(s.regs.sp - 2);
    ReadWrite16(s.mem, sp, s.regs.pc);
    (s.(regs := s.regs.(sp := sp, pc := address), mem := Write16(s.mem, sp, s.regs.pc)), 8)
  }
}
