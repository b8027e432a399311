/** What one instruction, a call followed by a return, and a run of ticks do to the
    machine state, stated over `Chip8.Execute` for every state and operand. */
module Chip8Properties {
  import opened Bits
  import opened Opcode
  import opened Config
  import opened Chip8

  /** The opcodes a dispatcher arm with an effect handles; `00E0` is dispatched to a stub. */
  predicate Handled(op: U16)
  {
    var family, low := op / 0x1000, op % 0x10;
    op == 0x00EE ||
    family in {0x1, 0x2, 0x3, 0x4, 0x6, 0x7, 0xA, 0xB, 0xC} ||
    (family in {0x5, 0x9} && low == 0) ||
    (family == 0x8 && low in {0x0, 0x1, 0x2, 0x3, 0x4, 0x5, 0x6, 0x7, 0xE})
  }

  // ---------------------------------------------------------------- no-ops

  /** Every opcode outside the handled set, `00E0` included, only advances the program
      counter by one instruction. */
  lemma UnhandledOnlyAdvances(m: Machine, op: U16, rnd: Byte)
    requires WellFormed(m) && !Handled(op)
    ensures CanDispatch(m, Decode(op))
    ensures Execute(m, op, rnd) == m.(pc := m.pc + OPCODE_SIZE)
  {
  }

  /** In particular the sprite, key and timer families `Dxyn`, `Ex..` and `Fx..`. */
  lemma DisplayKeyTimerFamiliesIgnored(m: Machine, op: U16, rnd: Byte)
    requires WellFormed(m) && op >= 0xD000
    ensures CanDispatch(m, Decode(op))
    ensures Execute(m, op, rnd) == m.(pc := m.pc + OPCODE_SIZE)
  {
    UnhandledOnlyAdvances(m, op, rnd);
  }

  lemma ClearScreenIsStub(m: Machine, rnd: Byte)
    requires WellFormed(m)
    ensures Execute(m, 0x00E0, rnd) == m.(pc := m.pc + OPCODE_SIZE)
  {
  }

  // ---------------------------------------------------------------- control flow

  lemma JumpSetsPc(m: Machine, nnn: Addr, rnd: Byte)
    requires WellFormed(m)
    ensures Execute(m, 0x1000 + nnn, rnd) == m.(pc := nnn)
  {
  }

  /** `Bnnn` jumps to `nnn + v[0]`, which may lie beyond the 12-bit address range. */
  lemma JumpWithOffset(m: Machine, nnn: Addr, rnd: Byte)
    requires WellFormed(m)
    ensures Execute(m, 0xB000 + nnn, rnd) == m.(pc := nnn + m.v[0])
  {
  }

  /** `2nnn` pushes the address of the call itself, one slot above `sp`. */
  lemma CallPushesOwnAddress(m: Machine, nnn: Addr, rnd: Byte)
    requires WellFormed(m) && m.sp + 1 < STACK_SIZE
    ensures CanDispatch(m, Decode(0x2000 + nnn))
    ensures Execute(m, 0x2000 + nnn, rnd) ==
            m.(sp := m.sp + 1, stack := m.stack[m.sp + 1 := m.pc], pc := nnn)
  {
  }

  /** `00EE` jumps to the address in slot `sp` and pops it. */
  lemma ReturnPops(m: Machine, rnd: Byte)
    requires WellFormed(m) && 1 <= m.sp < STACK_SIZE
    ensures Execute(m, 0x00EE, rnd) == m.(sp := m.sp - 1, pc := m.stack[m.sp])
  {
  }

  /** A call followed directly by a return restores the stack pointer and brings the
      program counter back to the call instruction's own address; the only trace left
      is the slot the call wrote. */
  lemma CallThenReturn(m: Machine, nnn: Addr, rnd1: Byte, rnd2: Byte)
    requires WellFormed(m) && m.sp + 1 < STACK_SIZE
    ensures CanDispatch(m, Decode(0x2000 + nnn))
    ensures var called := Execute(m, 0x2000 + nnn, rnd1);
            CanDispatch(called, Decode(0x00EE)) &&
            Execute(called, 0x00EE, rnd2) == m.(stack := m.stack[m.sp + 1 := m.pc])
  {
    CallPushesOwnAddress(m, nnn, rnd1);
    var called := Execute(m, 0x2000 + nnn, rnd1);
    ReturnPops(called, rnd2);
  }

  /** No instruction writes stack slot 0: a call writes slot `sp + 1`. */
  lemma StackSlotZeroNeverWritten(m: Machine, op: U16, rnd: Byte)
    requires WellFormed(m) && CanDispatch(m, Decode(op))
    ensures Execute(m, op, rnd).stack[0] == m.stack[0]
  {
  }

  /** Only the jumps (`1nnn`, `2nnn`, `Bnnn`, `00EE`) set the program counter freely; every
      other instruction moves it on by one or two instructions, and by two only in the
      skip families `3`, `4`, `5` and `9`. */
  lemma PcMovesOnUnlessJump(m: Machine, op: U16, rnd: Byte)
    requires WellFormed(m) && CanDispatch(m, Decode(op))
    ensures var d, r := Decode(op), Execute(m, op, rnd);
            !(d.n0 in {0x1, 0x2, 0xB} || IsReturn(d)) ==>
              (r.pc == m.pc + OPCODE_SIZE || r.pc == m.pc + 2 * OPCODE_SIZE) &&
              (r.pc == m.pc + 2 * OPCODE_SIZE ==> d.n0 in {0x3, 0x4, 0x5, 0x9})
  {
  }

  // ---------------------------------------------------------------- conditional skips

  lemma SkipIfEqualByte(m: Machine, x: Nibble, kk: Byte, rnd: Byte)
    requires WellFormed(m)
    ensures Execute(m, 0x3000 + x * 0x100 + kk, rnd) ==
            m.(pc := if m.v[x] == kk then m.pc + 2 * OPCODE_SIZE else m.pc + OPCODE_SIZE)
  {
  }

  lemma SkipIfNotEqualByte(m: Machine, x: Nibble, kk: Byte, rnd: Byte)
    requires WellFormed(m)
    ensures Execute(m, 0x4000 + x * 0x100 + kk, rnd) ==
            m.(pc := if m.v[x] != kk then m.pc + 2 * OPCODE_SIZE else m.pc + OPCODE_SIZE)
  {
  }

  lemma SkipIfEqualRegisters(m: Machine, x: Nibble, y: Nibble, rnd: Byte)
    requires WellFormed(m)
    ensures Execute(m, Encode(0x5, x, y, 0x0), rnd) ==
            m.(pc := if m.v[x] == m.v[y] then m.pc + 2 * OPCODE_SIZE else m.pc + OPCODE_SIZE)
  {
    DecodeEncode(0x5, x, y, 0x0);
  }

  lemma SkipIfNotEqualRegisters(m: Machine, x: Nibble, y: Nibble, rnd: Byte)
    requires WellFormed(m)
    ensures Execute(m, Encode(0x9, x, y, 0x0), rnd) ==
            m.(pc := if m.v[x] != m.v[y] then m.pc + 2 * OPCODE_SIZE else m.pc + OPCODE_SIZE)
  {
    DecodeEncode(0x9, x, y, 0x0);
  }

  // ---------------------------------------------------------------- loads and immediates

  lemma LoadByte(m: Machine, x: Nibble, kk: Byte, rnd: Byte)
    requires WellFormed(m)
    ensures Execute(m, 0x6000 + x * 0x100 + kk, rnd) ==
            m.(v := m.v[x := kk], pc := m.pc + OPCODE_SIZE)
  {
  }

  lemma LoadIndex(m: Machine, nnn: Addr, rnd: Byte)
    requires WellFormed(m)
    ensures Execute(m, 0xA000 + nnn, rnd) == m.(i := nnn, pc := m.pc + OPCODE_SIZE)
  {
  }

  /** `7xkk` adds modulo 256 and leaves every other register, VF included, alone. */
  lemma AddByteWraps(m: Machine, x: Nibble, kk: Byte, rnd: Byte)
    requires WellFormed(m)
    ensures var r := Execute(m, 0x7000 + x * 0x100 + kk, rnd);
            r == m.(v := r.v, pc := m.pc + OPCODE_SIZE) &&
            r.v[x] == (m.v[x] as int + kk) % 0x100 &&
            forall k :: 0 <= k < REGISTER_COUNT && k != x ==> r.v[k] == m.v[k]
  {
  }

  /** `Cxkk` with random byte `rnd`: `v[x] := kk + rnd` modulo 256. */
  lemma RandomByteAdded(m: Machine, x: Nibble, kk: Byte, rnd: Byte)
    requires WellFormed(m)
    ensures Execute(m, 0xC000 + x * 0x100 + kk, rnd) ==
            m.(v := m.v[x := (kk as int + rnd) % 0x100], pc := m.pc + OPCODE_SIZE)
  {
  }

  // ---------------------------------------------------------------- register moves and bitwise

  /** `8xy0` copies `v[x]` into `v[y]`; `v[x]` keeps its value. */
  lemma CopyIntoY(m: Machine, x: Nibble, y: Nibble, rnd: Byte)
    requires WellFormed(m)
    ensures var r := Execute(m, Encode(0x8, x, y, 0x0), rnd);
            r == m.(v := m.v[y := m.v[x]], pc := m.pc + OPCODE_SIZE) &&
            r.v[x] == m.v[x] && r.v[y] == m.v[x]
  {
    DecodeEncode(0x8, x, y, 0x0);
  }

  lemma OrRegisters(m: Machine, x: Nibble, y: Nibble, rnd: Byte)
    requires WellFormed(m)
    ensures Execute(m, Encode(0x8, x, y, 0x1), rnd) ==
            m.(v := m.v[x := Or8(m.v[x], m.v[y])], pc := m.pc + OPCODE_SIZE)
  {
    DecodeEncode(0x8, x, y, 0x1);
  }

  lemma AndRegisters(m: Machine, x: Nibble, y: Nibble, rnd: Byte)
    requires WellFormed(m)
    ensures Execute(m, Encode(0x8, x, y, 0x2), rnd) ==
            m.(v := m.v[x := And8(m.v[x], m.v[y])], pc := m.pc + OPCODE_SIZE)
  {
    DecodeEncode(0x8, x, y, 0x2);
  }

  lemma XorRegisters(m: Machine, x: Nibble, y: Nibble, rnd: Byte)
    requires WellFormed(m)
    ensures Execute(m, Encode(0x8, x, y, 0x3), rnd) ==
            m.(v := m.v[x := Xor8(m.v[x], m.v[y])], pc := m.pc + OPCODE_SIZE)
  {
    DecodeEncode(0x8, x, y, 0x3);
  }

  /** `8xy1` and `8yx1` compute the same OR, into `v[x]` and `v[y]` respectively. */
  lemma OrRegistersSymmetric(m: Machine, x: Nibble, y: Nibble, rnd1: Byte, rnd2: Byte)
    requires WellFormed(m)
    ensures Execute(m, Encode(0x8, x, y, 0x1), rnd1).v[x] == Execute(m, Encode(0x8, y, x, 0x1), rnd2).v[y]
  {
    OrRegisters(m, x, y, rnd1);
    OrRegisters(m, y, x, rnd2);
    OrCommutes(m.v[x], m.v[y], 8);
  }

  /** Executing `8xy3` twice with `x != y` gives back the original registers. */
  lemma XorTwiceRestores(m: Machine, x: Nibble, y: Nibble, rnd1: Byte, rnd2: Byte)
    requires WellFormed(m) && x != y
    ensures var op := Encode(0x8, x, y, 0x3);
            Execute(Execute(m, op, rnd1), op, rnd2) == m.(pc := m.pc + 2 * OPCODE_SIZE)
  {
    var op := Encode(0x8, x, y, 0x3);
    XorRegisters(m, x, y, rnd1);
    var once := Execute(m, op, rnd1);
    XorRegisters(once, x, y, rnd2);
    assert Pow2(8) == 0x100;
    XorCancels(m.v[x], m.v[y], 8);
    assert once.v[x := Xor8(once.v[x], once.v[y])] == m.v;
  }

  /** `8xx1` and `8xx2` (a register with itself) change no register. */
  lemma OrAndWithItself(m: Machine, x: Nibble, rnd: Byte)
    requires WellFormed(m)
    ensures Execute(m, Encode(0x8, x, x, 0x1), rnd) == m.(pc := m.pc + OPCODE_SIZE)
    ensures Execute(m, Encode(0x8, x, x, 0x2), rnd) == m.(pc := m.pc + OPCODE_SIZE)
  {
    OrRegisters(m, x, x, rnd);
    AndRegisters(m, x, x, rnd);
    assert Pow2(8) == 0x100;
    AndOrIdempotent(m.v[x], 8);
    assert m.v[x := m.v[x]] == m.v;
  }

  // ---------------------------------------------------------------- arithmetic flags

  /** `8xy4`: VF is 1 exactly when the true sum exceeds 255; VF is written last, so
      with `x == F` the flag is what remains. */
  lemma AddWithCarry(m: Machine, x: Nibble, y: Nibble, rnd: Byte)
    requires WellFormed(m)
    ensures var r := Execute(m, Encode(0x8, x, y, 0x4), rnd);
            r == m.(v := r.v, pc := m.pc + OPCODE_SIZE) &&
            (r.v[VF] == 1 <==> m.v[x] as int + m.v[y] > 0xFF) &&
            (r.v[VF] == 0 <==> m.v[x] as int + m.v[y] <= 0xFF) &&
            (x != VF ==> r.v[x] == (m.v[x] as int + m.v[y]) % 0x100) &&
            forall k :: 0 <= k < REGISTER_COUNT && k != x && k != VF ==> r.v[k] == m.v[k]
  {
    DecodeEncode(0x8, x, y, 0x4);
  }

  /** `8xy5`: VF is 0 exactly when the subtraction borrows (`v[x] < v[y]`), else 1. */
  lemma SubtractWithBorrow(m: Machine, x: Nibble, y: Nibble, rnd: Byte)
    requires WellFormed(m)
    ensures var r := Execute(m, Encode(0x8, x, y, 0x5), rnd);
            r == m.(v := r.v, pc := m.pc + OPCODE_SIZE) &&
            (r.v[VF] == 0 <==> m.v[x] < m.v[y]) &&
            (r.v[VF] == 1 <==> m.v[x] >= m.v[y]) &&
            (x != VF ==> r.v[x] == (m.v[x] as int - m.v[y]) % 0x100) &&
            forall k :: 0 <= k < REGISTER_COUNT && k != x && k != VF ==> r.v[k] == m.v[k]
  {
    DecodeEncode(0x8, x, y, 0x5);
  }

  /** `8xy7` for `x, y != F`: VF is 1 exactly when `v[y] > v[x]`, and `v[x] := v[y] - v[x]`
      modulo 256. */
  lemma ReverseSubtract(m: Machine, x: Nibble, y: Nibble, rnd: Byte)
    requires WellFormed(m) && x != VF && y != VF
    ensures var r := Execute(m, Encode(0x8, x, y, 0x7), rnd);
            r == m.(v := r.v, pc := m.pc + OPCODE_SIZE) &&
            (r.v[VF] == 1 <==> m.v[y] > m.v[x]) &&
            (r.v[VF] == 0 <==> m.v[y] <= m.v[x]) &&
            r.v[x] == (m.v[y] as int - m.v[x]) % 0x100 &&
            forall k :: 0 <= k < REGISTER_COUNT && k != x && k != VF ==> r.v[k] == m.v[k]
  {
    DecodeEncode(0x8, x, y, 0x7);
  }

  /** `8xF7` with `x != F`: VF is written before `v[y]` is read, so the subtraction uses the
      new flag, not the old VF. */
  lemma ReverseSubtractReadsNewFlag(m: Machine, x: Nibble, rnd: Byte)
    requires WellFormed(m) && x != VF
    ensures var r := Execute(m, Encode(0x8, x, 0xF, 0x7), rnd);
            var flag := if m.v[VF] > m.v[x] then 1 else 0;
            r.v[VF] == flag && r.v[x] == (flag - m.v[x] as int) % 0x100
  {
    DecodeEncode(0x8, x, 0xF, 0x7);
  }

  /** `8Fy7`: the flag `v[y] > VF` is written into VF first and then overwritten by
      `v[y] - flag` modulo 256; with `y == F` both sides are the new flag, so VF ends 0. */
  lemma ReverseSubtractIntoFlag(m: Machine, y: Nibble, rnd: Byte)
    requires WellFormed(m)
    ensures var r := Execute(m, Encode(0x8, VF, y, 0x7), rnd);
            var flag := if m.v[y] > m.v[VF] then 1 else 0;
            r == m.(v := r.v, pc := m.pc + OPCODE_SIZE) &&
            r.v[VF] == (if y == VF then 0 else (m.v[y] as int - flag) % 0x100) &&
            forall k :: 0 <= k < REGISTER_COUNT && k != VF ==> r.v[k] == m.v[k]
  {
    DecodeEncode(0x8, VF, y, 0x7);
  }

  // ---------------------------------------------------------------- shifts

  /** `8xy6` for `x != F`: VF gets the low bit, `v[x]` is halved; `y` plays no part. */
  lemma ShiftRight(m: Machine, x: Nibble, y: Nibble, rnd: Byte)
    requires WellFormed(m) && x != VF
    ensures var r := Execute(m, Encode(0x8, x, y, 0x6), rnd);
            r == m.(v := m.v[VF := m.v[x] % 2][x := m.v[x] / 2], pc := m.pc + OPCODE_SIZE)
  {
    DecodeEncode(0x8, x, y, 0x6);
  }

  /** `8xyE` for `x != F`: VF gets the high bit, `v[x]` is doubled modulo 256. */
  lemma ShiftLeft(m: Machine, x: Nibble, y: Nibble, rnd: Byte)
    requires WellFormed(m) && x != VF
    ensures var r := Execute(m, Encode(0x8, x, y, 0xE), rnd);
            r == m.(v := m.v[VF := m.v[x] / 0x80][x := m.v[x] as int * 2 % 0x100], pc := m.pc + OPCODE_SIZE)
  {
    DecodeEncode(0x8, x, y, 0xE);
  }

  /** With `x == F` the flag is written first and then shifted itself: `8Fy6` always
      leaves VF = 0, and `8FyE` leaves twice the old high bit. */
  lemma ShiftFlagRegister(m: Machine, y: Nibble, rnd: Byte)
    requires WellFormed(m)
    ensures Execute(m, Encode(0x8, 0xF, y, 0x6), rnd).v[VF] == 0
    ensures Execute(m, Encode(0x8, 0xF, y, 0xE), rnd).v[VF] == m.v[VF] / 0x80 * 2
  {
    DecodeEncode(0x8, 0xF, y, 0x6);
    DecodeEncode(0x8, 0xF, y, 0xE);
  }

  // ---------------------------------------------------------------- runs of ticks

  /** No instruction writes memory, the framebuffer, the timers or the `opcode` byte, so
      any number of ticks leaves all of them as they were. */
  lemma {:induction false} RunLeavesMemoryScreenTimers(m: Machine, rnds: seq<Byte>)
    requires WellFormed(m) && CanRun(m, rnds)
    ensures var r := Run(m, rnds);
            r.memory == m.memory && r.gfx == m.gfx && r.opcode == m.opcode &&
            r.delayTimer == m.delayTimer && r.soundTimer == m.soundTimer
    decreases |rnds|
  {
    if rnds != [] {
      RunLeavesMemoryScreenTimers(Step(m, rnds[0]), rnds[1..]);
    }
  }
}

/** Every case of the unit tests in `tests/test_cpu.rs` that exercises an implemented
    instruction, restated over the model, plus one three-instruction program loaded and
    run through `tick`. */
module Chip8Examples {
  import opened Bits
  import opened Opcode
  import opened Config
  import opened Chip8
  import opened Chip8Properties

  /** A call from the initial state stores 0x200 in slot 1 and jumps. */
  lemma CallFromInitialState(font: seq<Byte>, rnd: Byte)
    requires |font| <= MEMORY_SIZE
    ensures var r := Execute(Initial(font), 0x2201, rnd);
            r.sp == 1 && r.stack[1] == 0x200 && r.pc == 0x201
  {
    CallPushesOwnAddress(Initial(font), 0x201, rnd);
  }

  /** `00EE` with `sp == 1` and `stack[1] == 0x201` returns to 0x201. */
  lemma ReturnExample(m: Machine, rnd: Byte)
    requires WellFormed(m) && m.sp == 1 && m.stack[1] == 0x201
    ensures CanDispatch(m, Decode(0x00EE)) && Execute(m, 0x00EE, rnd).pc == 0x201
  {
    ReturnPops(m, rnd);
  }

  /** `1201` jumps to 0x201. */
  lemma JumpExample(m: Machine, rnd: Byte)
    requires WellFormed(m)
    ensures Execute(m, 0x1201, rnd).pc == 0x201
  {
    JumpSetsPc(m, 0x201, rnd);
  }

  /** With `v[1] == 3`, `3103` skips and `3104` does not. */
  lemma SkipIfEqualByteExample(m: Machine, rnd: Byte)
    requires WellFormed(m) && m.v[1] == 3
    ensures Execute(m, 0x3103, rnd).pc == m.pc + 2 * OPCODE_SIZE
    ensures Execute(m, 0x3104, rnd).pc == m.pc + OPCODE_SIZE
  {
    SkipIfEqualByte(m, 1, 3, rnd);
    SkipIfEqualByte(m, 1, 4, rnd);
  }

  /** With `v[1] == 3`, `4101` skips and `4103` does not. */
  lemma SkipIfNotEqualByteExample(m: Machine, rnd: Byte)
    requires WellFormed(m) && m.v[1] == 3
    ensures Execute(m, 0x4101, rnd).pc == m.pc + 2 * OPCODE_SIZE
    ensures Execute(m, 0x4103, rnd).pc == m.pc + OPCODE_SIZE
  {
    SkipIfNotEqualByte(m, 1, 1, rnd);
    SkipIfNotEqualByte(m, 1, 3, rnd);
  }

  /** With `v[0] == v[1] == 1` and `v[2] == 0`, `5010` skips and `5020` does not. */
  lemma SkipIfEqualRegistersExample(m: Machine, rnd: Byte)
    requires WellFormed(m) && m.v[0] == 1 && m.v[1] == 1 && m.v[2] == 0
    ensures Execute(m, 0x5010, rnd).pc == m.pc + 2 * OPCODE_SIZE
    ensures Execute(m, 0x5020, rnd).pc == m.pc + OPCODE_SIZE
  {
    SkipIfEqualRegisters(m, 0, 1, rnd);
    SkipIfEqualRegisters(m, 0, 2, rnd);
  }

  /** `61F0` loads 0xF0 into `v[1]` and moves on. */
  lemma LoadByteExample(m: Machine, rnd: Byte)
    requires WellFormed(m)
    ensures var r := Execute(m, 0x61F0, rnd); r.v[1] == 0xF0 && r.pc == m.pc + OPCODE_SIZE
  {
    LoadByte(m, 1, 0xF0, rnd);
  }

  /** `7001` on 0 gives 1; `71FF` on 0 gives 0xFF. */
  lemma AddImmediateExample(m: Machine, rnd: Byte)
    requires WellFormed(m) && m.v[0] == 0 && m.v[1] == 0
    ensures var r := Execute(m, 0x7001, rnd); r.v[0] == 0x01 && r.pc == m.pc + OPCODE_SIZE
    ensures var r := Execute(m, 0x71FF, rnd); r.v[1] == 0xFF && r.pc == m.pc + OPCODE_SIZE
  {
    AddByteWraps(m, 0, 0x01, rnd);
    AddByteWraps(m, 1, 0xFF, rnd);
  }

  /** `8010` with `v[0] == 5` leaves 5 in both `v[0]` and `v[1]`. */
  lemma CopyExample(m: Machine, rnd: Byte)
    requires WellFormed(m) && m.v[0] == 0x05
    ensures var r := Execute(m, 0x8010, rnd);
            r.v[0] == 0x05 && r.v[1] == r.v[0] && r.pc == m.pc + OPCODE_SIZE
  {
    CopyIntoY(m, 0, 1, rnd);
  }

  /** `9010` does not skip on 4, 4 and skips on 4, 1. */
  lemma SkipIfNotEqualRegistersExample(m: Machine, rnd: Byte)
    requires WellFormed(m) && m.v[0] == 0x04
    ensures m.v[1] == 0x04 ==> Execute(m, 0x9010, rnd).pc == m.pc + OPCODE_SIZE
    ensures m.v[1] == 0x01 ==> Execute(m, 0x9010, rnd).pc == m.pc + 2 * OPCODE_SIZE
  {
    SkipIfNotEqualRegisters(m, 0, 1, rnd);
  }

  /** `A0FF` loads 0xFF into `i`. */
  lemma LoadIndexExample(m: Machine, rnd: Byte)
    requires WellFormed(m)
    ensures var r := Execute(m, 0xA0FF, rnd); r.i == 0xFF && r.pc == m.pc + OPCODE_SIZE
  {
    LoadIndex(m, 0x0FF, rnd);
  }

  /** `C001` stores `1 + rnd` modulo 256 in `v[0]` and moves on. */
  lemma RandomByteExample(m: Machine, rnd: Byte)
    requires WellFormed(m)
    ensures var r := Execute(m, 0xC001, rnd);
            r.v[0] == (0x01 + rnd) % 0x100 && r.pc == m.pc + OPCODE_SIZE
  {
    RandomByteAdded(m, 0, 0x01, rnd);
  }

  /** `7102` on `v[1] == 0xFF` wraps to 0x01. */
  lemma AddImmediateOverflow(m: Machine, rnd: Byte)
    requires WellFormed(m) && m.v[1] == 0xFF
    ensures var r := Execute(m, 0x7102, rnd); r.v[1] == 0x01 && r.pc == m.pc + OPCODE_SIZE
  {
    AddByteWraps(m, 1, 0x02, rnd);
  }

  /** `8014` on 0xF0 + 0xF0 gives 0xE0 with the carry set. */
  lemma AddRegistersOverflow(m: Machine, rnd: Byte)
    requires WellFormed(m) && m.v[0] == 0xF0 && m.v[1] == 0xF0
    ensures var r := Execute(m, 0x8014, rnd); r.v[0] == 0xE0 && r.v[VF] == 1 && r.pc == m.pc + OPCODE_SIZE
  {
    AddWithCarry(m, 0, 1, rnd);
  }

  /** `8234` on 0x05 + 0x02 gives 0x07 with VF = 0. */
  lemma AddRegistersNoCarry(m: Machine, rnd: Byte)
    requires WellFormed(m) && m.v[2] == 0x05 && m.v[3] == 0x02
    ensures var r := Execute(m, 0x8234, rnd);
            r.v[2] == 0x07 && r.v[VF] == 0 && r.pc == m.pc + OPCODE_SIZE
  {
    AddWithCarry(m, 2, 3, rnd);
  }

  /** `8015` on 0x08 - 0x0A gives 0xFE with VF = 0. */
  lemma SubtractRegistersBorrow(m: Machine, rnd: Byte)
    requires WellFormed(m) && m.v[0] == 0x08 && m.v[1] == 0x0A
    ensures var r := Execute(m, 0x8015, rnd); r.v[0] == 0xFE && r.v[VF] == 0 && r.pc == m.pc + OPCODE_SIZE
  {
    SubtractWithBorrow(m, 0, 1, rnd);
  }

  /** `8235` on 0x05 - 0x02 gives 0x03 with VF = 1. */
  lemma SubtractRegistersNoBorrow(m: Machine, rnd: Byte)
    requires WellFormed(m) && m.v[2] == 0x05 && m.v[3] == 0x02
    ensures var r := Execute(m, 0x8235, rnd);
            r.v[2] == 0x03 && r.v[VF] == 1 && r.pc == m.pc + OPCODE_SIZE
  {
    SubtractWithBorrow(m, 2, 3, rnd);
  }

  /** `8017` on `v[0] = 5, v[1] = 6` gives 1 with VF = 1. */
  lemma ReverseSubtractNoWrap(m: Machine, rnd: Byte)
    requires WellFormed(m) && m.v[0] == 0x05 && m.v[1] == 0x06
    ensures var r := Execute(m, 0x8017, rnd);
            r.v[0] == 0x01 && r.v[VF] == 1 && r.pc == m.pc + OPCODE_SIZE
  {
    ReverseSubtract(m, 0, 1, rnd);
  }

  /** `8017` on `v[0] = 8, v[1] = 3` gives 251 with VF = 0. */
  lemma ReverseSubtractWraps(m: Machine, rnd: Byte)
    requires WellFormed(m) && m.v[0] == 0x08 && m.v[1] == 0x03
    ensures var r := Execute(m, 0x8017, rnd); r.v[0] == 251 && r.v[VF] == 0 && r.pc == m.pc + OPCODE_SIZE
  {
    ReverseSubtract(m, 0, 1, rnd);
  }

  /** `8006` on 4 gives 2 with VF = 0. */
  lemma ShiftRightEvenExample(m: Machine, rnd: Byte)
    requires WellFormed(m) && m.v[0] == 4
    ensures var r := Execute(m, 0x8006, rnd); r.v[0] == 2 && r.v[VF] == 0 && r.pc == m.pc + OPCODE_SIZE
  {
    ShiftRight(m, 0, 0, rnd);
  }

  /** `800E` on 0x04 gives 0x08 with VF = 0. */
  lemma ShiftLeftNoCarryExample(m: Machine, rnd: Byte)
    requires WellFormed(m) && m.v[0] == 0x04
    ensures var r := Execute(m, 0x800E, rnd); r.v[0] == 0x08 && r.v[VF] == 0 && r.pc == m.pc + OPCODE_SIZE
  {
    ShiftLeft(m, 0, 0, rnd);
  }

  /** `8406` on 5 gives 2 with VF = 1. */
  lemma ShiftRightExample(m: Machine, rnd: Byte)
    requires WellFormed(m) && m.v[4] == 5
    ensures var r := Execute(m, 0x8406, rnd); r.v[4] == 2 && r.v[VF] == 1 && r.pc == m.pc + OPCODE_SIZE
  {
    ShiftRight(m, 4, 0, rnd);
  }

  /** `810E` on 0x82 gives 0x04 with VF = 1. */
  lemma ShiftLeftExample(m: Machine, rnd: Byte)
    requires WellFormed(m) && m.v[1] == 0x82
    ensures var r := Execute(m, 0x810E, rnd); r.v[1] == 0x04 && r.v[VF] == 1 && r.pc == m.pc + OPCODE_SIZE
  {
    ShiftLeft(m, 1, 0, rnd);
  }

  /** `8011` on 0x1 | 0x8 gives 0x9. */
  lemma OrExample(m: Machine, rnd: Byte)
    requires WellFormed(m) && m.v[0] == 0x1 && m.v[1] == 0x8
    ensures var r := Execute(m, 0x8011, rnd); r.v[0] == 0x9 && r.pc == m.pc + OPCODE_SIZE
  {
    OrRegisters(m, 0, 1, rnd);
    assert Or8(0x1, 0x8) == 0x9;
  }

  /** `8012` on 0x9 & 0xB gives 0x9. */
  lemma AndExample(m: Machine, rnd: Byte)
    requires WellFormed(m) && m.v[0] == 0x9 && m.v[1] == 0xB
    ensures var r := Execute(m, 0x8012, rnd); r.v[0] == 0x9 && r.pc == m.pc + OPCODE_SIZE
  {
    AndRegisters(m, 0, 1, rnd);
    assert And8(0x9, 0xB) == 0x9;
  }

  /** `8013` on 0xD ^ 0xB gives 0x6. */
  lemma XorExample(m: Machine, rnd: Byte)
    requires WellFormed(m) && m.v[0] == 0xD && m.v[1] == 0xB
    ensures var r := Execute(m, 0x8013, rnd); r.v[0] == 0x6 && r.pc == m.pc + OPCODE_SIZE
  {
    XorRegisters(m, 0, 1, rnd);
    assert Xor8(0xD, 0xB) == 0x6;
  }

  /** `B0CA` with `v[0] == 1` jumps to 0x0CB. */
  lemma JumpWithOffsetExample(m: Machine, rnd: Byte)
    requires WellFormed(m) && m.v[0] == 1
    ensures Execute(m, 0xB0CA, rnd).pc == 0x0CB
  {
    JumpWithOffset(m, 0x0CA, rnd);
  }

  /** The program of the addition scenario. */
  const ADD_PROGRAM: seq<Byte> := [0x60, 0x0A, 0x61, 0x05, 0x80, 0x14]

  /** A machine holding the addition program at 0x200 with its counter at `0x200 + 2 * k`. */
  predicate AtAddProgram(m: Machine, k: nat)
  {
    WellFormed(m) && m.pc == PROGRAM_START + 2 * k &&
    m.memory[PROGRAM_START..PROGRAM_START + |ADD_PROGRAM|] == ADD_PROGRAM
  }

  /** First tick: `600A`. */
  lemma AddProgramFirstTick(m: Machine)
    requires AtAddProgram(m, 0)
    ensures CanStep(m) && AtAddProgram(Step(m, 0), 1) && Step(m, 0).v[0] == 0x0A
  {
    assert m.memory[0x200] == 0x60 && m.memory[0x201] == 0x0A;
    assert Fetch(m) == 0x600A;
    LoadByte(m, 0, 0x0A, 0);
  }

  /** Second tick: `6105`, leaving `v[0]` alone. */
  lemma AddProgramSecondTick(m: Machine)
    requires AtAddProgram(m, 1) && m.v[0] == 0x0A
    ensures CanStep(m) && AtAddProgram(Step(m, 0), 2)
    ensures Step(m, 0).v[0] == 0x0A && Step(m, 0).v[1] == 0x05
  {
    assert m.memory[0x202] == 0x61 && m.memory[0x203] == 0x05;
    assert Fetch(m) == 0x6105;
    LoadByte(m, 1, 0x05, 0);
  }

  /** Third tick: `8014` adds without carry. */
  lemma AddProgramThirdTick(m: Machine)
    requires AtAddProgram(m, 2) && m.v[0] == 0x0A && m.v[1] == 0x05
    ensures CanStep(m) && AtAddProgram(Step(m, 0), 3)
    ensures Step(m, 0).v[0] == 0x0F && Step(m, 0).v[VF] == 0
  {
    assert m.memory[0x204] == 0x80 && m.memory[0x205] == 0x14;
    assert Fetch(m) == Encode(0x8, 0, 1, 0x4);
    AddWithCarry(m, 0, 1, 0);
  }

  /** Loading `60 0A 61 05 80 14` and ticking three times computes 0x0A + 0x05 in `v[0]`,
      with no carry, and stops at 0x206. */
  lemma AddProgram(font: seq<Byte>)
    requires |font| <= MEMORY_SIZE
    ensures var m := LoadRom(Initial(font), ADD_PROGRAM);
            CanRun(m, [0, 0, 0]) &&
            var r := Run(m, [0, 0, 0]);
            r.v[0] == 0x0F && r.v[VF] == 0 && r.pc == 0x206
  {
    var m0 := LoadRom(Initial(font), ADD_PROGRAM);
    assert AtAddProgram(m0, 0);
    AddProgramFirstTick(m0);
    var m1 := Step(m0, 0);
    AddProgramSecondTick(m1);
    var m2 := Step(m1, 0);
    AddProgramThirdTick(m2);
    var m3 := Step(m2, 0);
    assert [0, 0, 0][1..] == [0, 0] && [0, 0][1..] == [0];
    assert CanRun(m2, [0]);
    assert Run(m0, [0, 0, 0]) == m3;
  }
}
