/** The opcode classifier of the CPU: an ordered chain of mask/pattern tests
    that maps one opcode byte to the class of its instruction handler. */
module Decode {

  /** One tag per instruction descriptor (libgbc/cpu.cpp:151-190). */
  datatype Instr =
    | NOP | LD_N_SP | HALT | LD_D_D
    | LD_R_N | LD_R_A_R | ADD_HL_R | INC_DEC_R | INC_DEC_D | RLC_RRC
    | STOP | JR_N | LD_D_N | LDID_HL_A | CPL | SCF_CCF | ALU_A_N_D
    | PUSH_POP | RET | RST | JP | CALL | LD_N_A_N | LD_xxx_A
    | LD_HL_SP | LD_JP_HL | DI_EI | CB_EXT | MISSING

  /** The opcodes the chain leaves unmatched. */
  predicate IsMissingOpcode(op: bv8) {
    op == 0x27 || op == 0xCC || op == 0xD3 || op == 0xD4 || op == 0xDB ||
    op == 0xDC || op == 0xE3 || op == 0xE4 || op == 0xE8 || op == 0xEB ||
    op == 0xEC || op == 0xF4 || op == 0xFC
  }

  /** CPU::decode as written, test by test in source order. */
  function Decode(op: bv8): (r: Instr)
    ensures r == HALT <==> op == 0x76
    ensures r == LD_D_D <==> (op & 0xC0 == 0x40 && op != 0x76)
    ensures r == ALU_A_N_D <==> (op & 0xC0 == 0x80 || op & 0xC7 == 0xC6)
    ensures r == LD_N_A_N <==> (op == 0xEA || op == 0xFA)
    ensures r == LD_xxx_A <==> (op == 0xE0 || op == 0xF0 || op == 0xE2 || op == 0xF2)
    ensures r == CALL <==> (op == 0xC4 || op == 0xCD || op == 0xDD || op == 0xED || op == 0xFD)
    ensures r == CB_EXT <==> op == 0xCB
    ensures r == MISSING <==> IsMissingOpcode(op)
  {
    if op == 0x00 then NOP
    else if op == 0x08 then LD_N_SP
    else if op & 0xC0 == 0x40 then (if op == 0x76 then HALT else LD_D_D)
    else if op & 0xCF == 0x01 then LD_R_N
    else if op & 0xE7 == 0x02 then LD_R_A_R
    else if op & 0xCF == 0x09 then ADD_HL_R
    else if op & 0xC7 == 0x03 then INC_DEC_R
    else if op & 0xC6 == 0x04 then INC_DEC_D
    else if op & 0xE7 == 0x07 then RLC_RRC
    else if op == 0x10 then STOP
    else if op == 0x18 then JR_N
    else if op & 0xE7 == 0x20 then JR_N
    else if op & 0xC7 == 0x06 then LD_D_N
    else if op & 0xE7 == 0x22 then LDID_HL_A
    else if op == 0x2F then CPL
    else if op & 0xF7 == 0x37 then SCF_CCF
    else if op & 0xC7 == 0xC6 then ALU_A_N_D
    else if op & 0xC0 == 0x80 then ALU_A_N_D
    else if op & 0xCB == 0xC1 then PUSH_POP
    else if op & 0xE7 == 0xC0 then RET
    else if op & 0xEF == 0xC9 then RET
    else if op & 0xC7 == 0xC7 then RST
    else if op & 0xFF == 0xC3 then JP
    else if op & 0xE7 == 0xC2 then JP
    else if op & 0xFF == 0xC4 then CALL
    else if op & 0xCD == 0xCD then CALL
    else if op & 0xEF == 0xEA then LD_N_A_N
    else if op & 0xEF == 0xE0 then LD_xxx_A
    else if op & 0xEF == 0xE2 then LD_xxx_A
    else if op & 0xEF == 0xEA then LD_xxx_A
    else if op == 0xF8 then LD_HL_SP
    else if op & 0xEF == 0xE9 then LD_JP_HL
    else if op & 0xF7 == 0xF3 then DI_EI
    else if op == 0xCB then CB_EXT
    else MISSING
  }

  /** The remaining classes, each with the exact set of opcodes it receives;
      together with the contract of Decode this is the flattened 256-entry
      table of the chain. Here the classes of the 0x00-0x3F quarter. */
  lemma DecodeTableLow(op: bv8)
    ensures Decode(op) == NOP <==> op == 0x00
    ensures Decode(op) == LD_N_SP <==> op == 0x08
    ensures Decode(op) == LD_R_N <==> (op == 0x01 || op == 0x11 || op == 0x21 || op == 0x31)
    ensures Decode(op) == LD_R_A_R <==> (op == 0x02 || op == 0x0A || op == 0x12 || op == 0x1A)
    ensures Decode(op) == ADD_HL_R <==> (op == 0x09 || op == 0x19 || op == 0x29 || op == 0x39)
  {
    if op < 0x40 {
    } else if op < 0x80 {
    } else if op < 0xC0 {
    } else {
    }
  }

  /** The 0x00-0x3F classes that take a register operand from bits 3-5. */
  lemma DecodeTableRegister(op: bv8)
    ensures Decode(op) == INC_DEC_R <==> (op < 0x40 && op & 0x07 == 0x03)
    ensures Decode(op) == INC_DEC_D <==> (op < 0x40 && (op & 0x07 == 0x04 || op & 0x07 == 0x05))
    ensures Decode(op) == LD_D_N <==> (op < 0x40 && op & 0x07 == 0x06)
  {
    if op < 0x40 {
    } else if op < 0x80 {
    } else if op < 0xC0 {
    } else {
    }
  }

  /** The rotate, stop and relative-jump classes of the 0x00-0x3F quarter. */
  lemma DecodeTableRotate(op: bv8)
    ensures Decode(op) == RLC_RRC <==> (op == 0x07 || op == 0x0F || op == 0x17 || op == 0x1F)
    ensures Decode(op) == STOP <==> op == 0x10
    ensures Decode(op) == JR_N <==> (op == 0x18 || op == 0x20 || op == 0x28 || op == 0x30 || op == 0x38)
  {
    if op < 0x40 {
    } else if op < 0x80 {
    } else if op < 0xC0 {
    } else {
    }
  }

  /** The remaining 0x00-0x3F classes. */
  lemma DecodeTableLowRest(op: bv8)
    ensures Decode(op) == LDID_HL_A <==> (op == 0x22 || op == 0x2A || op == 0x32 || op == 0x3A)
    ensures Decode(op) == CPL <==> op == 0x2F
    ensures Decode(op) == SCF_CCF <==> (op == 0x37 || op == 0x3F)
  {
    if op < 0x40 {
    } else if op < 0x80 {
    } else if op < 0xC0 {
    } else {
    }
  }

  /** The stack and return classes of the 0xC0-0xFF quarter, with their
      exact opcodes. */
  lemma DecodeTableStack(op: bv8)
    ensures Decode(op) == PUSH_POP <==> (op & 0xCB == 0xC1)
    ensures Decode(op) == RET <==> (op == 0xC0 || op == 0xC8 || op == 0xC9 || op == 0xD0 || op == 0xD8 || op == 0xD9)
    ensures Decode(op) == RST <==> (op & 0xC7 == 0xC7)
  {
    if op < 0x40 {
    } else if op < 0x80 {
    } else if op < 0xC0 {
    } else {
    }
  }

  /** The absolute-jump class of the 0xC0-0xFF quarter. */
  lemma DecodeTableJump(op: bv8)
    ensures Decode(op) == JP <==> (op == 0xC2 || op == 0xC3 || op == 0xCA || op == 0xD2 || op == 0xDA)
  {
    if op < 0x40 {
    } else if op < 0x80 {
    } else if op < 0xC0 {
    } else {
    }
  }

  /** The remaining classes of the 0xC0-0xFF quarter. */
  lemma DecodeTableHighRest(op: bv8)
    ensures Decode(op) == LD_HL_SP <==> op == 0xF8
    ensures Decode(op) == LD_JP_HL <==> (op == 0xE9 || op == 0xF9)
    ensures Decode(op) == DI_EI <==> (op == 0xF3 || op == 0xFB)
  {
    if op < 0x40 {
    } else if op < 0x80 {
    } else if op < 0xC0 {
    } else {
    }
  }

  /** The second 0xEA test (libgbc/cpu.cpp:184) never decides: no opcode it
      would match reaches it, so LD_xxx_A only ever comes from the 0xE0 and
      0xE2 tests. */
  lemma SecondEaTestUnreachable(op: bv8)
    requires op & 0xEF == 0xEA
    ensures Decode(op) == LD_N_A_N
    ensures Decode(op) != LD_xxx_A
  {
  }

  /** Opcodes without a rule in the chain (DAA, ADD SP,e, and the undefined
      Game Boy opcodes among others) are classified MISSING. */
  lemma UnhandledOpcodesAreMissing()
    ensures Decode(0x27) == MISSING && Decode(0xE8) == MISSING
    ensures Decode(0xDB) == MISSING && Decode(0xEB) == MISSING && Decode(0xEC) == MISSING
    ensures Decode(0xE4) == MISSING && Decode(0xFC) == MISSING && Decode(0xF4) == MISSING
  {
  }

  /** Counterexample for the conditional-call rule as written: CALL Z,nn
      (0xCC), CALL NC,nn (0xD4) and CALL C,nn (0xDC) reach MISSING, while the
      undefined opcodes 0xDD, 0xED and 0xFD are classified as calls. */
  lemma ConditionalCallsMisclassified()
    ensures Decode(0xCC) == MISSING && Decode(0xD4) == MISSING && Decode(0xDC) == MISSING
    ensures Decode(0xDD) == CALL && Decode(0xED) == CALL && Decode(0xFD) == CALL
  {
  }

  /** The classifier with the conditional-call test evidently intended at
      libgbc/cpu.cpp:180: the four conditional calls share the pattern
      `op & 0xE7 == 0xC4`, and CALL nn is 0xCD. */
  function DecodeIntended(op: bv8): (r: Instr)
    ensures r == CALL <==> (op == 0xC4 || op == 0xCC || op == 0xD4 || op == 0xDC || op == 0xCD)
    ensures r == MISSING <==>
      (op == 0x27 || op == 0xD3 || op == 0xDB || op == 0xDD || op == 0xE3 || op == 0xE4 ||
       op == 0xE8 || op == 0xEB || op == 0xEC || op == 0xED || op == 0xF4 || op == 0xFC || op == 0xFD)
    ensures Decode(op) != CALL && Decode(op) != MISSING ==> r == Decode(op)
  {
    if op == 0xCD || op & 0xE7 == 0xC4 then CALL
    else if Decode(op) == CALL then MISSING
    else Decode(op)
  }
}
