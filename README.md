# gamebro CPU control core in Dafny

This project models the control core of the gamebro Game Boy emulator (libgbc):

- the opcode classifier `CPU::decode`;
- the CPU step (`simulate`, `execute`), reset and the cycle counter;
- the two-step interrupt-enable and interrupt-disable countdowns and the prioritised interrupt dispatch;
- the stack push of `push_and_jump`;
- the debugger's break/step controller (`break_time`, `break_on_steps`, `break_checks`, breakpoints);
- the console command interpreter (`split`, `execute_commands`, the pause loop, the older one-key prompt);
- the sound unit's NR52 register.

It proves properties of that model.

The layout:

- `wrappers.dfy`: `Option`.
- `decode.dfy`: module `Decode`, the classifier as a pure function with its full opcode table.
- `text.dfy`: module `Text`, the tokenizer `split` as a loop method proved against `Tokens`, with its round trip.
- `machine.dfy`: module `Machine`, the CPU state as a value (`CpuState`) and every CPU transition as a function on it, with their lemmas.
- `debugger.dfy`: module `Debugger`, command lines, the pause loop and `break_checks` on the state value.
- `engine.dfy`: module `Engine`, `execute` and `simulate` on the state value.
- `cpu.dfy`: module `Gbc`, the CPU object. Class `Cpu` has the fields the source updates in place. Each of its methods, and the free functions `execute_commands` and `print_and_pause`, is proved to produce exactly the state the matching function above computes from the old state.
- `apu.dfy`: module `Apu`, the NR52 read and the masked in-place write.

Collaborators the CPU calls out to are recorded as `Event`s in the state:

- the acknowledgement `io.interrupt(v)` sends to the I/O block (the push of PC and the jump to the vector that go with it are modelled on the state);
- breakpoint callbacks;
- instruction handlers, with the PC each one starts from;
- `gpu.render_and_vblank`;
- the debug interrupt;
- the machine-wide reset.

Memory is a 65536-byte sequence. The interrupt mask and the handler's cycle count are parameters. Console input is a sequence of lines. The numeric conversions `strtoul(…, 16)` and `stoi` are the two functions of a `Parsers` value.

## Model

| member | source | states |
|---|---|---|
| Decode.Decode | libgbc/cpu.cpp:149-191 | 0x76 is HALT and every other 0x40-0x7F opcode is LD_D_D; 0x80-0xBF and the `op & 0xC7 == 0xC6` immediates are ALU_A_N_D; EA/FA are LD_N_A_N; E0/F0/E2/F2 are LD_xxx_A; CALL is exactly C4, CD, DD, ED, FD; CB is the extension prefix; MISSING is exactly the 13 unmatched opcodes (each as an if-and-only-if) |
| Decode.DecodeTableLow | libgbc/cpu.cpp:151-158 | exact opcode sets of NOP, LD_N_SP, LD_R_N, LD_R_A_R, ADD_HL_R |
| Decode.DecodeTableRegister | libgbc/cpu.cpp:160-167 | INC_DEC_R, INC_DEC_D and LD_D_N are exactly the 0x00-0x3F opcodes with low three bits 3, 4/5 and 6 |
| Decode.DecodeTableRotate | libgbc/cpu.cpp:163-166 | exact opcode sets of RLC_RRC (07, 0F, 17, 1F), STOP and JR_N (18, 20, 28, 30, 38) |
| Decode.DecodeTableLowRest | libgbc/cpu.cpp:168-170 | exact opcode sets of LDID_HL_A, CPL and SCF_CCF |
| Decode.DecodeTableStack | libgbc/cpu.cpp:173-176 | exact opcode sets of PUSH_POP, RET (C0, C8, C9, D0, D8, D9) and RST |
| Decode.DecodeTableJump | libgbc/cpu.cpp:177-178 | exact opcode set of JP (C2, C3, CA, D2, DA) |
| Decode.DecodeTableHighRest | libgbc/cpu.cpp:185-187 | exact opcode sets of LD_HL_SP, LD_JP_HL (E9, F9) and DI_EI (F3, FB) |
| Decode.SecondEaTestUnreachable | libgbc/cpu.cpp:181-184 | every opcode the second 0xEA test matches was already taken as LD_N_A_N, so that test never returns |
| Decode.UnhandledOpcodesAreMissing | libgbc/cpu.cpp:190 | DAA (0x27), ADD SP,e (0xE8) and the undefined DB, EB, EC, E4, FC, F4 classify as MISSING |
| Decode.ConditionalCallsMisclassified | libgbc/cpu.cpp:179-180 | the conditional-call test as written sends CC, D4, DC to MISSING and the undefined DD, ED, FD to CALL |
| Decode.DecodeIntended | libgbc/cpu.cpp:179-180 | with the direct test `op == 0xCD` (line 179) and the conditional test `op & 0xE7 == 0xC4` (line 180), CALL is exactly the five calls, MISSING gains DD/ED/FD and loses CC/D4/DC, every other class is unchanged |
| Text.Find | libgbc/debug.cpp:9-17 | `find` returns the first position at or after `from` holding the character, or none when there is none |
| Text.Substr | libgbc/debug.cpp:14 | `substr(pos, n)` is the slice starting at pos of length n, cut short only at the end of the string |
| Text.Split | libgbc/debug.cpp:6-23 | the loop returns `Tokens`: one piece more than separators, no piece holds the separator, joining gives the input back |
| Text.SplitStep | libgbc/debug.cpp:12-17 | one loop round keeps the invariant: pieces so far plus the pieces of the rest are the pieces of the line |
| Text.SplitLast | libgbc/debug.cpp:20-21 | when `find` fails, pushing the rest completes the pieces |
| Text.TokensStep | libgbc/debug.cpp:13-17 | the pieces from a position are the text up to the next separator, then the pieces after it |
| Text.TokensLast | libgbc/debug.cpp:20-21 | with no separator left the rest is one piece |
| Text.FindSuffix | libgbc/debug.cpp:17 | searching from a position is searching the suffix that starts there, offset by that position |
| Text.TokensShape | libgbc/debug.cpp:6-23 | count(ch) + 1 pieces, none containing ch |
| Text.JoinTokens | libgbc/debug.cpp:6-23 | joining the pieces with ch reproduces the input |
| Text.TokensJoin | libgbc/debug.cpp:6-23 | splitting a join of separator-free pieces returns those pieces (the inverse direction) |
| Text.FindFirst | libgbc/debug.cpp:9 | a position holding ch with none before it is what `find` returns |
| Text.SplitEmpty | libgbc/debug.cpp:21 | "" splits into [""] |
| Machine.Reset | libgbc/cpu.cpp:15-25 | AF=01B0, BC=0013, DE=00D8, HL=014D, SP=FFFE, PC=0100, cycles 0, nothing else changes, validity kept |
| Machine.ResetIdempotent | libgbc/cpu.cpp:15-25 | resetting twice is resetting once |
| Machine.IncrCycles | libgbc/cpu.cpp:200-204 | requires count >= 0; adds exactly count, so the counter never decreases; nothing else changes |
| Machine.Stop | libgbc/cpu.cpp:206-209 | clears running and nothing else |
| Machine.Wait | libgbc/cpu.cpp:211-214 | sets halting to 1 and nothing else |
| Machine.BreakNow | libgbc/cpu.cpp:134 | raises the pause flag and nothing else |
| Machine.BreakOnSteps | libgbc/debug.cpp:201-206 | requires steps >= 0; configured and remaining count both become steps; nothing else changes |
| Machine.BreakTime | libgbc/debug.cpp:188-199 | only the remaining count changes; with the flag up answers true and changes nothing; with no countdown answers false and changes nothing; keeps the countdown invariant |
| Machine.BreakTimes | libgbc/debug.cpp:188-199 | k successive calls give k answers |
| Machine.CountdownRunsOut | libgbc/debug.cpp:191-196 | with m steps left the next m calls answer false m-1 times, then true, and re-arm the countdown to the configured count |
| Machine.BreakTimesAdd | libgbc/debug.cpp:188-199 | a calls then b calls is a+b calls |
| Machine.BreakOnStepsPeriodic | libgbc/debug.cpp:188-206 | after break_on_steps(n), c*n calls answer true on exactly every n-th call and end in the armed state again |
| Machine.EnableInterrupts | libgbc/cpu.cpp:101-103 | sets only the enable countdown, to 2 |
| Machine.DisableInterrupts | libgbc/cpu.cpp:104-106 | sets only the disable countdown, to 2 |
| Machine.Countdown | libgbc/cpu.cpp:110-118 | each running countdown drops by one; IME becomes false if the disable countdown hits 0, else true if the enable one does, else stays |
| Machine.Priority | libgbc/cpu.cpp:129-134 | the chosen vector's bit is set and no higher-priority bit is; none exactly when bits 0-4 are clear |
| Machine.Interrupt | libgbc/cpu.cpp:129-133 | io.interrupt(v): one Interrupted(v) event, PC becomes the vector's address, SP drops by 2 and the word there is the old PC, only those two bytes of memory and SP/PC change; validity kept |
| Machine.Acknowledge | libgbc/cpu.cpp:129-134 | with a pending vector: exactly one Interrupted event for the highest-priority one, PC at its address, the old PC pushed, the pause flag unchanged; with none of bits 0-4: only the pause flag is raised; nothing else changes |
| Machine.HandleInterrupts | libgbc/cpu.cpp:108-138 | validity kept; touches only IME, the countdowns, the pause flag, halting, registers, memory and the event log; with a dispatch (IME up after the countdowns, one of bits 0-4 set) exactly the highest-priority interrupt is signalled, PC is its vector address and the old PC is on top of the stack 2 below the old SP; without one, registers, memory and the log are unchanged |
| Machine.Dispatch | libgbc/cpu.cpp:120-137 | with IME up and a non-zero mask: IME false, both countdowns 0, halting decremented if positive; with one of bits 0-4 set, exactly the lowest set vector is signalled and jumped to with the old PC pushed; with none set, break_now and nothing pushed |
| Machine.NoDispatch | libgbc/cpu.cpp:121 | otherwise only the countdowns run |
| Machine.VBlankBeforeTimer | libgbc/cpu.cpp:129-131 | with vblank and timer pending only vblank is signalled, and PC goes to 0x40 |
| Machine.EnableTakesTwoCalls | libgbc/cpu.cpp:101-114 | IME rises on exactly the second handle_interrupts after enable_interrupts |
| Machine.DisableTakesTwoCalls | libgbc/cpu.cpp:104-118 | IME falls on exactly the second handle_interrupts after disable_interrupts |
| Machine.DisableWinsTie | libgbc/cpu.cpp:111-118 | both countdowns ending in one call leave IME false |
| Machine.EnableThenDisable | libgbc/cpu.cpp:101-118 | enable then disable leaves IME false two calls later, whatever the masks |
| Machine.Write16 | libgbc/cpu.cpp:219 | a 16-bit write keeps memory at 65536 bytes |
| Machine.ReadWrite16 | libgbc/cpu.cpp:219 | reading back a 16-bit write gives the value; other bytes unchanged |
| Machine.PushAndJump | libgbc/cpu.cpp:216-222 | SP drops by 2 mod 2^16, the word at the new SP is the old PC, PC is the target, other registers and memory unchanged, returns 8 |
| Debugger.Parse | libgbc/debug.cpp:55-162 | a line takes a resuming branch exactly when execute_commands returns false for it; reset is chosen exactly for a `reset` command |
| Debugger.ParseWords | libgbc/debug.cpp:60-162 | the branch resumes exactly for the resume command names; step count is the argument or 1 |
| Debugger.Apply | libgbc/debug.cpp:60-162 | no command touches the input, IME or the interrupt countdowns; validity kept; only reset touches the registers, cycles or pause flag; the opcode is never touched; only debugger events are added |
| Debugger.ApplyControl | libgbc/debug.cpp:60-101 | the stepping, breakpoint, tracing and run commands touch neither input, events, opcode, pause flag, registers, cycles, memory nor the interrupt state; validity kept |
| Debugger.Command | libgbc/debug.cpp:45-163 | returns true exactly when the line does not resume; input and interrupt state untouched; validity kept |
| Debugger.ReadCommand | libgbc/debug.cpp:47-55 | a true answer consumed exactly one line; the interrupt state is untouched |
| Debugger.PauseLoop | libgbc/debug.cpp:185 | validity, input well-formedness and the interrupt state (IME, both countdowns) kept |
| Debugger.LinesRead | libgbc/debug.cpp:185 | the lines read are all looping ones except the last, which resumes unless the input ran out; no line is read only when there is none |
| Debugger.PauseLoopReads | libgbc/debug.cpp:185 | the loop ends exactly after the first line on which execute_commands returns false |
| Debugger.PauseLoopEvents | libgbc/debug.cpp:185 | the loop only appends vblank, debug-interrupt and reset events, never a callback or interrupt |
| Debugger.PauseLoopNoReset | libgbc/debug.cpp:185 | without a reset line the loop keeps the pause flag, registers and cycles |
| Debugger.PauseLoopOpcode | libgbc/debug.cpp:185 | the loop keeps the current opcode |
| Debugger.ParseLine | libgbc/debug.cpp:56-57 | a line of space-free words splits into exactly those words and takes the branch they select |
| Debugger.EmptyCommand | libgbc/debug.cpp:55-67 | an empty line or empty first token returns false and changes nothing |
| Debugger.ContinueCommand | libgbc/debug.cpp:60-63 | `c`/`continue` zeroes the step countdown and returns false |
| Debugger.RunCommand | libgbc/debug.cpp:97-101 | `r`/`run` also clears verbose |
| Debugger.QuitStops | libgbc/debug.cpp:102-105 | `q`/`quit`/`exit` clears running and returns false |
| Debugger.QuitWord | libgbc/debug.cpp:102-105 | each of the three quit words stops the machine and returns false |
| Debugger.ResetCommand | libgbc/debug.cpp:106-110 | `reset` gives power-on registers, cycles 0, the flag set, a machine reset event, and returns false |
| Debugger.StepCommand | libgbc/debug.cpp:68-75 | `s` sets verbose and one step; `s n` sets verbose and n steps; both return false |
| Debugger.StepLongForm | libgbc/debug.cpp:68-71 | `step` and `step n` take the same branch as `s` and `s n`: one step, or n |
| Debugger.StepWord | libgbc/debug.cpp:68-71 | either step word alone parses to one step, with an argument to that many |
| Debugger.BreakCommands | libgbc/debug.cpp:77-89 | `b` alone changes nothing and returns true; `b a` puts the default pause point at a & 0xFFFF; `clear` empties the table |
| Debugger.BreakLongForm | libgbc/debug.cpp:77-83 | `break` and `break a` take the same branch as `b` and `b a`: the usage message, or the pause point at a & 0xFFFF |
| Debugger.BreakWord | libgbc/debug.cpp:77-83 | either break word alone parses to the usage branch, with an address to the pause point there |
| Debugger.VerboseTwice | libgbc/debug.cpp:91-96 | `v` toggles verbose, twice is the identity |
| Debugger.WriteCommand | libgbc/debug.cpp:131-142 | `write a v` takes the write branch at a & 0xFFFF with v & 0xFF and returns true |
| Debugger.ParseWrite | libgbc/debug.cpp:131-137 | `write a v` splits into three words and parses to the write of a & 0xFFFF, v & 0xFF |
| Debugger.ApplyWrite | libgbc/debug.cpp:138-140 | that write stores the byte at the address and changes nothing else |
| Debugger.Poke | libgbc/debug.cpp:140 | write8 stores the byte at the address, changes no other byte and keeps the size |
| Debugger.InertCommands | libgbc/debug.cpp:112-162 | `read`, `help`, `?` and unknown commands return true with no state change |
| Debugger.KeyCommand | libgbc/cpu.cpp:264-297 | the one-key prompt changes only tracing, the step countdown and the running flag; validity kept |
| Debugger.IdleKeys | libgbc/cpu.cpp:264-297 | Enter, C, c and every key the switch does not list change nothing |
| Debugger.VerboseKey | libgbc/cpu.cpp:282-287 | V and v toggle tracing and nothing else |
| Debugger.RunKey | libgbc/cpu.cpp:288-292 | R and r switch tracing off and end the step countdown |
| Debugger.QuitKey | libgbc/cpu.cpp:293-296 | Q and q stop the CPU and nothing else |
| Debugger.VerboseKeyTwice | libgbc/cpu.cpp:282-287 | two presses of V restore the state |
| Debugger.RunKeyAfterDigit | libgbc/cpu.cpp:270-292 | R after a digit key is R alone: nothing of the digit's countdown remains |
| Debugger.DigitKeys | libgbc/cpu.cpp:270-281 | keys 1-9 set verbose and 2^(k-1) steps (at least one), leave running alone, and 9 gives 256 |
| Debugger.CallHook | libgbc/debug.cpp:222 | a callback is recorded once; only the default pause point raises the flag; nothing else changes |
| Debugger.BreakChecks | libgbc/debug.cpp:208-227 | validity kept |
| Debugger.BreakChecksCallback | libgbc/debug.cpp:208-227 | a callback runs exactly once when break_time() was false and PC is a key, and never otherwise |
| Debugger.BreakChecksClearsFlag | libgbc/debug.cpp:210-214 | a pause lowers the flag, and a session without reset leaves it down |
| Engine.BreakStage | libgbc/cpu.cpp:53-67 | validity kept; IME and the interrupt countdowns untouched |
| Engine.Execute | libgbc/cpu.cpp:51-98 | validity kept; IME and the interrupt countdowns untouched; returns the handler's cycles |
| Engine.Issue | libgbc/cpu.cpp:68-97 | PC + 1 mod 2^16 and no other register change, exactly one Handled event with the (corrected) decoded class and the advanced PC the handler starts from, only the flags snapshot changes besides; validity kept |
| Engine.Simulate | libgbc/cpu.cpp:27-49 | validity kept |
| Engine.BreakStageEffects | libgbc/cpu.cpp:53-67 | no pause and no entry: only break_time's change; a hit sets the step count and verbose from the entry and runs its callback once if it has one; registers unchanged unless a reset was typed |
| Engine.BreakStageKeepsRegs | libgbc/cpu.cpp:53-67 | without a reset typed at a pause, the debugger stage keeps the registers |
| Engine.PauseSkipsBreakpoints | libgbc/cpu.cpp:53-66 | when break_time() is true the table is not consulted: no callback event |
| Engine.ExecuteStep | libgbc/cpu.cpp:68-83 | PC advances by exactly 1 mod 2^16 past the debugger stage before the handler runs: the handler gets the (corrected) decoded class and starts from the advanced PC; other registers unchanged; returns cost |
| Engine.ExecuteAdvancesPc | libgbc/cpu.cpp:51-83 | without a reset typed at a pause, execute leaves PC one past where it started |
| Engine.ExecuteFlagsSnapshot | libgbc/cpu.cpp:85-95 | with tracing on the flags snapshot equals the flags afterwards |
| Engine.ExecuteKeepsCycles | libgbc/cpu.cpp:51-98 | execute leaves the counter and current opcode to simulate |
| Engine.SimulateStopped | libgbc/cpu.cpp:38-48 | not running: exactly 4 cycles, no fetch, halting 1 cleared; with no dispatch PC, registers, memory and events unchanged; with a dispatch PC at the vector, the old PC pushed, one Interrupted event |
| Engine.SimulateRunning | libgbc/cpu.cpp:29-48 | running: the opcode at PC is fetched, decoded and handled from PC + 1, exactly cost cycles added; PC ends at PC + 1 with no dispatch, or at the vector with PC + 1 pushed |
| Engine.SimulateRunningCycles | libgbc/cpu.cpp:33-36 | running: exactly cost cycles are added |
| Engine.SimulateRunningFetch | libgbc/cpu.cpp:31-32 | running: the current opcode becomes the byte at PC |
| Engine.SimulateRunningPc | libgbc/cpu.cpp:31-48 | running: PC ends one past the fetched byte, or at the vector with that address on top of the stack when an interrupt is taken |
| Engine.SimulateRunningHandled | libgbc/cpu.cpp:31-34 | running: the fetched byte is handed to its handler, starting one past the PC the debugger stage left, reset or not |
| Engine.SimulateRunningHandledAt | libgbc/cpu.cpp:31-34 | without a reset, the handler starts one past the fetched byte |
| Engine.HandledSurvives | libgbc/cpu.cpp:33-48 | the handler call logged by execute stays in the log through the cycle update and handle_interrupts |
| Engine.ExecuteLastEvent | libgbc/cpu.cpp:81-83 | the last event of execute is the handler call, from PC + 1 |
| Engine.InterruptsKeep | libgbc/cpu.cpp:108-138 | handle_interrupts keeps opcode and cycles, and the old event log is a prefix of the new one, so the last logged event stays in place |
| Gbc.Cpu.constructor | libgbc/cpu.cpp:9-13 | state is reset of the defaults |
| Gbc.Cpu.Reset | libgbc/cpu.cpp:15-25 | new state is Machine.Reset of the old |
| Gbc.Cpu.IncrCycles | libgbc/cpu.cpp:200-204 | new state is Machine.IncrCycles of the old |
| Gbc.Cpu.Stop | libgbc/cpu.cpp:206-209 | new state is Machine.Stop of the old |
| Gbc.Cpu.Wait | libgbc/cpu.cpp:211-214 | new state is Machine.Wait of the old |
| Gbc.Cpu.BreakNow | libgbc/cpu.cpp:134 | new state is Machine.BreakNow of the old |
| Gbc.Cpu.EnableInterrupts | libgbc/cpu.cpp:101-103 | new state is Machine.EnableInterrupts of the old |
| Gbc.Cpu.DisableInterrupts | libgbc/cpu.cpp:104-106 | new state is Machine.DisableInterrupts of the old |
| Gbc.Cpu.Countdown | libgbc/cpu.cpp:110-118 | new state is Machine.Countdown of the old |
| Gbc.Cpu.Interrupt | libgbc/cpu.cpp:129-133 | new state is Machine.Interrupt of the old |
| Gbc.Cpu.Acknowledge | libgbc/cpu.cpp:129-134 | new state is Machine.Acknowledge of the old |
| Gbc.Cpu.HandleInterrupts | libgbc/cpu.cpp:108-138 | new state is Machine.HandleInterrupts of the old |
| Gbc.Cpu.PushAndJump | libgbc/cpu.cpp:216-222 | new state and result are Machine.PushAndJump of the old |
| Gbc.Cpu.BreakTime | libgbc/debug.cpp:188-199 | new state and answer are Machine.BreakTime of the old |
| Gbc.Cpu.BreakOnSteps | libgbc/debug.cpp:201-206 | new state is Machine.BreakOnSteps of the old |
| Gbc.Cpu.DefaultPausepoint | libgbc/debug.cpp:83 | only the breakpoint table changes: the default pause point is put at the address |
| Gbc.Cpu.CallHook | libgbc/cpu.cpp:63 | new state is Debugger.CallHook of the old |
| Gbc.Cpu.BreakStage | libgbc/cpu.cpp:53-67 | new state is Engine.BreakStage of the old |
| Gbc.Cpu.Execute | libgbc/cpu.cpp:51-98 | new state and result are Engine.Execute of the old |
| Gbc.Cpu.Issue | libgbc/cpu.cpp:68-97 | new state is Engine.Issue of the old |
| Gbc.Cpu.Simulate | libgbc/cpu.cpp:27-49 | new state is Engine.Simulate of the old |
| Gbc.Cpu.BreakChecks | libgbc/debug.cpp:208-227 | new state is Debugger.BreakChecks of the old |
| Gbc.PrintAndPause | libgbc/debug.cpp:165-186 | the loop's final state is Debugger.PauseLoop of the old |
| Gbc.PauseOnKey | libgbc/cpu.cpp:242-299 | new state is Debugger.KeyCommand of the old for the key read |
| Gbc.ExecuteCommands | libgbc/debug.cpp:45-163 | new state and answer are Debugger.ReadCommand of the old |
| Gbc.Dispatch | libgbc/debug.cpp:60-90 | new state and answer are Apply and Resumes of the parsed words |
| Gbc.DispatchControl | libgbc/debug.cpp:91-101 | the same for the tracing and run commands |
| Gbc.DispatchMachine | libgbc/debug.cpp:102-111 | the same for the quit and reset commands |
| Gbc.DispatchMemory | libgbc/debug.cpp:112-162 | the same for read, write, vblank, debug, help and unknown commands |
| Apu.Nr52Write | libgbc/apu.cpp:35-41 | low nibble kept, bits 4-6 zero, bit 7 from the written value |
| Apu.Nr52WriteUnique | libgbc/apu.cpp:38-39 | those three facts determine the register completely |
| Apu.Nr52WriteIdempotent | libgbc/apu.cpp:38-39 | writing a value twice is writing it once |
| Apu.Nr52LastWriteWins | libgbc/apu.cpp:38-39 | a later write erases every trace of an earlier one |
| Apu.SoundOnAfterWrite | libgbc/apu.cpp:35-41 | sound is on after a write exactly when bit 7 of the value was set |
| Apu.Read | libgbc/apu.cpp:23-31 | requires the NR52 address; returns the register unchanged |
| Apu.Write | libgbc/apu.cpp:32-46 | requires the NR52 address; the register becomes Nr52Write of its old value |
| Apu.Simulate | libgbc/apu.cpp:14-21 | the call gets past its guard exactly when bit 7 of NR52 is set; it changes nothing |

## Left out

- Console output (`printf`), the prompt texts, the register and flag dumps, the hex dump of `read`/`ld` and the help text are not modelled; those commands are modelled as changing nothing.
- Input is a sequence of already-read lines. The character loop of `getchar` is one line per read; end of input reads as the empty line.
- `Gbc.PauseOnKey` takes the key as a parameter. The second `getchar` that swallows the newline is not modelled.
- `strtoul(…, 16)` and `stoi` are the abstract `Parsers` functions. Their parse failures and exceptions are not modelled, and neither is the `try/catch` around the (HL)/(SP) dump.
- Instruction handlers and disassembly printers are not part of this model: their source is not among the files modelled. A handler is recorded as a `Handled` event with its decoded class and the PC it starts from, and its cycle cost is a parameter. Its effect on registers and memory is not modelled.
- Breakpoint callbacks are recorded as `HookCalled` events. Only the default pause point's effect (`break_now`) is modelled; other callbacks cannot change the CPU in this model.
- The memory collaborator is a flat 65536-byte sequence: no banking, I/O mapping or ROM protection. `write` with an address outside it truncates to 16 bits, on the assumption that `write8` takes a 16-bit address (the memory header is not part of this model).
- `machine().reset()` is modelled as the CPU reset plus a `MachineReset` event. The resets of the other subsystems are not modelled.
- `gpu.render_and_vblank` and the debug-interrupt callback are events only.
- `io.interrupt(v)` belongs to io.cpp, which is not part of this model. It is modelled as the acknowledgement (an `Interrupted` event) plus `push_and_jump` to the vector's fixed address: 0x40, 0x48, 0x50, 0x58 and 0x60, the Game Boy's interrupt table. The clearing of the request bit and any cycles the dispatch adds are not modelled.
- The declarations of cpu.hpp/io.hpp are not part of this model. They are given the meaning evident from their use:
  - `is_running()` reads `m_running`;
  - `ime()` reads `m_intr_master_enable`;
  - `break_now()` sets `m_break`;
  - `default_pausepoint(a)` puts at `a` an entry whose callback calls `break_now`, with step count 0 and tracing off;
  - a breakpoint is a callback, a step count and a tracing flag;
  - `REG_NR52` is 0xFF26;
  - the field defaults are running, not halting, interrupts off, no countdowns and no breakpoints.
- `Debugger.BreakChecks` requires the entry at PC to have a callback (when the table is consulted). `break_checks` calls it without testing, so an empty callback would throw.
- The source defines `CPU::print_and_pause`, `break_time` and `break_on_steps` twice, in cpu.cpp and in debug.cpp, with the same signatures; which copy is linked is not visible in the two files. The model chooses the command-loop version of debug.cpp for `execute` and `break_checks`, and models the key version of cpu.cpp separately as `Gbc.PauseOnKey`. The two copies of `break_time` and `break_on_steps` have the same text.
- `Apu.Read` and `Apu.Write` make the NR52 address a precondition: any other address is a fatal assertion in the source.
- `APU::simulate` is modelled as its guard (`Apu.Simulate`), whose result says whether the call gets past it. The rest of its body is empty in the source.
- `execute` classifies with the corrected `Decode.DecodeIntended` (see Findings). For the six opcodes CC, D4, DC, DD, ED and FD, the `Handled` event therefore carries the class the source evidently meant, not the one it computes.

## Findings

| source | as written | input that shows it | evidently intended | confidence | as-written member | corrected member |
|---|---|---|---|---|---|---|
| libgbc/cpu.cpp:179-180 | the direct-call test is `(op & 0xff) == 0xc4` and the conditional-call test is `(op & 0xcd) == 0xcd` | CALL Z,nn (0xCC), CALL NC,nn (0xD4) and CALL C,nn (0xDC) fail it and end as MISSING, while the undefined 0xDD, 0xED and 0xFD pass it as CALL | line 179 `(op & 0xff) == 0xcd` (direct) and line 180 `(op & 0xe7) == 0xc4` (conditional), which together match exactly CD, C4, CC, D4 and DC | high (not executed) | Decode.ConditionalCallsMisclassified | Decode.DecodeIntended |
