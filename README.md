# CHIP-8 interpreter core (rust-8), modelled in Dafny

rust-8 is a CHIP-8 interpreter. Its core is the `Cpu` object in `src/cpu.rs`. The object holds:

- 4096 bytes of memory and sixteen 8-bit registers `v[0..15]`;
- the 16-bit index register `i` and the program counter `pc`;
- a 64 x 32 framebuffer and two 8-bit timers;
- a sixteen-slot call stack with its stack pointer `sp`.

`tick` reads the big-endian word at `pc` and hands it to `run_opcode`. `run_opcode` splits the
word into four nibbles and the operand fields `nnn`, `kk`, `x`, `y`, `n`. It matches the
nibble tuple against the implemented instructions. The selected handler updates the state and
returns a `ProgramCounter` directive:

- `Next` moves `pc` on by 2;
- `Skip` moves it on by 4;
- `Jump(p)` sets `pc` to `p`.

A tuple without an arm behaves as `Next`.

The project has two layers.

- **The value layer** (`machine.dfy`, module `Chip8`):
  - The `Machine` datatype is the whole state.
  - `Dispatch` is the effect of every handler.
  - `Execute` is `run_opcode`, `Step` is `tick` and `Run` is a sequence of ticks.
- **The object layer** (`cpu.dfy`, module `CpuModel`):
  - The class `Cpu` mirrors the Rust struct. It has arrays for memory, registers, framebuffer
    and stack, and mutable fields for the counters.
  - Each handler is a method that updates those fields in place and returns the directive.
  - `RunOpcode` and `Tick` are proved to leave the object in exactly the state that
    `Execute` and `Step` compute.
  - The pure state function `State()` links the two layers.

Supporting modules:

- `bits.dfy` (`Bits`): Rust's `u8` arithmetic (`overflowing_add`, `overflowing_sub`,
  `wrapping_*`) and the bitwise `&`, `|` and `^`, defined bit by bit on naturals.
- `opcode.dfy` (`Opcode`): instruction decoding and the directive.
- `config.dfy` (`Config`): the constants of `src/lib.rs`.
- `properties.dfy`:
  - `Chip8Properties` holds lemmas for every implemented instruction and for call/return
    and runs of ticks.
  - `Chip8Examples` restates as lemmas every case of the unit tests in `tests/test_cpu.rs`
    that exercises an implemented instruction. It adds one three-instruction program
    (`60 0A 61 05 80 14`) loaded and run through `tick`. The remaining tests cover code this
    repository does not implement, and have no lemma:
    - `test_cpu_default` uses `Cpu::default`;
    - `test_op_00e0` expects the screen cleared in a two-dimensional `gfx`, while `00E0` is a
      stub;
    - the `Dxyn`, `Ex9E`, `ExA1`, `Fx07` and `Fx0A` tests target handlers that are not
      dispatched.

Instructions follow the code as written, including where it departs from the usual CHIP-8
reference (Cowgod's technical reference):

- `8xy0` copies `v[x]` into `v[y]`. It does not copy `v[y]` into `v[x]`.
- `2nnn` pushes the current `pc`, which is the address of the call itself, not the address
  after it. `00EE` then jumps straight to that slot. A return therefore lands on the call
  instruction again (`Chip8Properties.CallThenReturn`).
  - On most interpreters a return continues after the call. The code and its tests
    (`tests/test_cpu.rs:27-62`) say otherwise, and the model follows the code.
- `Cxkk` stores `kk + rnd` modulo 256, where `rnd` is the random byte. It does not store
  `rnd & kk`.
- `8xy6`, `8xyE` and `8xy7` write VF first and then read the registers again. So with `x == F`
  or `y == F` the freshly written flag takes part in the result.
  - `8xy4` and `8xy5` write VF last, so with `x == F` the flag is what remains.
- `00E0`, clear screen, is a stub that only moves on. `Dxyn`, `Ex..` and `Fx..` are not
  dispatched and behave as `Next`.

## Model

| member | source | states |
|---|---|---|
| Bits.LowBitOfByte | src/cpu.rs:297-299 | `v & 0b01` on a byte is the low bit `v % 2`, the flag `8xy6` stores |
| Bits.HighBitOfByte | src/cpu.rs:314-316 | `(v & 0b1000_0000) >> 7` on a byte is the top bit `v / 128`, the flag `8xyE` stores |
| Bits.AndTopBit | src/cpu.rs:315 | masking a `k+1`-bit value with `2^k` keeps exactly that bit: `2^k` if set, else 0 |
| Bits.XorCancels | src/cpu.rs:261-264 | XOR with the same value twice gives back the original value (the inverse of `^=`) |
| Bits.AndOrIdempotent | src/cpu.rs:249-258 | AND and OR of a value with itself give the value, for every value that fits the width |
| Bits.OrCommutes | src/cpu.rs:249-252 | OR is commutative |
| Bits.And8 | src/cpu.rs:256 | `a & b` on `u8` (also the masks at lines 298 and 315), defined bit by bit; the result is at most either operand and its low bit is set exactly when both low bits are; `AndOrIdempotent`, `AndTopBit`, `LowBitOfByte` and `HighBitOfByte` pin the rest down |
| Bits.Or8 | src/cpu.rs:250 | Rust's bitwise OR on `u8`, defined bit by bit; the low bit of the result is set exactly when either low bit is; `AndOrIdempotent` and `OrCommutes` pin the rest down |
| Bits.Xor8 | src/cpu.rs:262 | `a ^ b` on `u8`, defined bit by bit; the low bit of the result is set exactly when the low bits differ; `XorCancels` pins the rest down |
| Bits.OverflowingAdd | src/cpu.rs:236 | `u8::overflowing_add`: the sum modulo 256, and the flag is set exactly when the true sum exceeds 255 (also used at line 269) |
| Bits.OverflowingSub | src/cpu.rs:283 | `u8::overflowing_sub`: the difference modulo 256, and the flag is set exactly when `a < b` |
| Bits.WrappingAdd | src/cpu.rs:344 | `u8::wrapping_add`: the sum modulo 256 |
| Bits.WrappingSub | src/cpu.rs:308 | `u8::wrapping_sub`: the difference modulo 256 |
| Opcode.Decode | src/cpu.rs:120-130 | the four nibbles re-encode to the opcode; `nnn` is the low 12 bits, `kk` the low byte, `x`, `y`, `n` the second, third and fourth nibbles |
| Opcode.DecodeEncode | src/cpu.rs:120-125 | decoding the opcode built from four nibbles gives back exactly those nibbles; with `Decode`'s ensures, the two are inverse |
| Opcode.Advance | src/cpu.rs:171-175 | the `match pc_change` over the `ProgramCounter` enum of lines 10-14: `Next` moves `pc` on by 2, `Skip` by 4, and `Jump(p)` sets it to `p`; its effect per instruction is proved by `JumpSetsPc`, the `Skip*` lemmas, `LoadByte` and `PcMovesOnUnlessJump` |
| Chip8.Initial | src/cpu.rs:55-72 | after initialisation memory holds the font table at the bottom and zeros above it; registers, framebuffer and stack are zero; `pc == 0x200`; `sp`, `i`, `opcode` and timers are 0 |
| Chip8.LoadRom | src/cpu.rs:94-101 | `rom[k]` is at address `0x200 + k`; every other address and every other field is unchanged |
| Chip8.Fetch | src/cpu.rs:104-108 | the word is big-endian: the byte at `pc` gives the family nibble and `x`, the byte at `pc + 1` gives `kk` |
| Chip8.Dispatch | src/cpu.rs:143-169 | the handler selected by the nibble tuple never writes memory, framebuffer, timers or `opcode`, nor moves `pc` itself; the result keeps the array sizes |
| Chip8.Execute | src/cpu.rs:117-176 | the state after one `run_opcode` keeps every array size |
| Chip8.Step | src/cpu.rs:112-115 | the state after one `tick` keeps every array size |
| Chip8.Run | src/cpu.rs:112-115 | the state after repeated ticks keeps every array size |
| CpuModel.Cpu.constructor | src/cpu.rs:38-53 | a new object is fresh and in the initial state with the given font table |
| CpuModel.Cpu.Initialize | src/cpu.rs:55-72 | the object's state becomes `Chip8.Initial(font)` |
| CpuModel.Cpu.LoadFonts | src/cpu.rs:87-91 | memory becomes the font table followed by the old memory above it |
| CpuModel.Cpu.LoadRom | src/cpu.rs:94-101 | the object's state becomes `Chip8.LoadRom` of the old state |
| CpuModel.Cpu.ReadWord | src/cpu.rs:104-108 | returns `memory[pc] * 256 + memory[pc + 1]`, which is `Chip8.Fetch` of the state; nothing changes |
| CpuModel.Cpu.Tick | src/cpu.rs:112-115 | the object's state becomes `Chip8.Step` of the old state |
| CpuModel.Cpu.RunOpcode | src/cpu.rs:117-176 | the object's state becomes `Chip8.Execute` of the old state, the opcode and the random byte |
| CpuModel.Cpu.RunHandler | src/cpu.rs:143-169 | registers, stack, `sp`, `i` and the returned directive are exactly those of `Chip8.Dispatch` |
| CpuModel.Cpu.RunRegisterOpcode | src/cpu.rs:154-162 | for the `8xyN` arms: registers and directive are those of `Chip8.Dispatch` |
| CpuModel.Cpu.Op00E0 | src/cpu.rs:180-182 | returns `Next` and changes nothing |
| CpuModel.Cpu.Op00EE | src/cpu.rs:185-189 | returns `Jump(stack[sp])` and decrements `sp`; needs `1 <= sp < 16` |
| CpuModel.Cpu.Op1nnn | src/cpu.rs:192-194 | returns `Jump(nnn)` |
| CpuModel.Cpu.Op2nnn | src/cpu.rs:197-201 | increments `sp`, stores the current `pc` in the new slot, returns `Jump(nnn)`; needs `sp + 1 < 16` |
| CpuModel.Cpu.Op3xkk | src/cpu.rs:204-209 | returns `Skip` exactly when `v[x] == kk`, otherwise `Next` |
| CpuModel.Cpu.Op4xkk | src/cpu.rs:212-217 | returns `Skip` exactly when `v[x] != kk`, otherwise `Next` |
| CpuModel.Cpu.Op5xy0 | src/cpu.rs:220-225 | returns `Skip` exactly when `v[x] == v[y]`, otherwise `Next` |
| CpuModel.Cpu.Op6xkk | src/cpu.rs:228-231 | only `v[x]` changes, to `kk` |
| CpuModel.Cpu.Op7xkk | src/cpu.rs:234-240 | only `v[x]` changes, to `(v[x] + kk) mod 256`; VF untouched |
| CpuModel.Cpu.Op8xy0 | src/cpu.rs:243-246 | only `v[y]` changes, to the old `v[x]` |
| CpuModel.Cpu.Op8xy1 | src/cpu.rs:249-252 | only `v[x]` changes, to `v[x]` OR `v[y]` |
| CpuModel.Cpu.Op8xy2 | src/cpu.rs:255-258 | only `v[x]` changes, to `v[x] & v[y]` |
| CpuModel.Cpu.Op8xy3 | src/cpu.rs:261-264 | only `v[x]` changes, to `v[x] ^ v[y]` |
| CpuModel.Cpu.Op8xy4 | src/cpu.rs:267-278 | `v[x]` becomes the sum mod 256, then VF becomes 1 if the sum exceeded 255, else 0 |
| CpuModel.Cpu.Op8xy5 | src/cpu.rs:281-292 | `v[x]` becomes the difference mod 256, then VF becomes 0 if it borrowed, else 1 |
| CpuModel.Cpu.Op8x06 | src/cpu.rs:297-301 | VF becomes the low bit of `v[x]`, then `v[x]` is halved |
| CpuModel.Cpu.Op8xy7 | src/cpu.rs:306-310 | VF becomes 1 if `v[y] > v[x]`, else 0, then `v[x]` becomes `v[y] - v[x]` mod 256, read after the flag write |
| CpuModel.Cpu.Op8x0E | src/cpu.rs:314-318 | VF becomes the high bit of `v[x]`, then `v[x]` is doubled mod 256 |
| CpuModel.Cpu.Op9xy0 | src/cpu.rs:321-326 | returns `Skip` exactly when `v[x] != v[y]`, otherwise `Next` |
| CpuModel.Cpu.OpAnnn | src/cpu.rs:329-332 | `i` becomes `nnn`; returns `Next` |
| CpuModel.Cpu.OpBnnn | src/cpu.rs:336-338 | returns `Jump(nnn + v[0])` |
| CpuModel.Cpu.OpCxkk | src/cpu.rs:341-347 | only `v[x]` changes, to `(kk + rnd) mod 256` for the random byte `rnd` |
| Chip8Properties.UnhandledOnlyAdvances | src/cpu.rs:143-175 | every opcode outside the handled set (including `00E0`, `0nnn`, `5xyN`/`9xyN` with `N != 0`, unlisted `8xyN`) can always run and only moves `pc` on by 2 |
| Chip8Properties.DisplayKeyTimerFamiliesIgnored | src/cpu.rs:167-168 | every opcode from `D000` up only moves `pc` on by 2 |
| Chip8Properties.ClearScreenIsStub | src/cpu.rs:145 | `00E0` only moves `pc` on by 2 |
| Chip8Properties.JumpSetsPc | src/cpu.rs:147 | `1nnn` sets `pc` to `nnn` and changes nothing else |
| Chip8Properties.JumpWithOffset | src/cpu.rs:165 | `Bnnn` sets `pc` to `nnn + v[0]` and changes nothing else |
| Chip8Properties.CallPushesOwnAddress | src/cpu.rs:148 | `2nnn` increments `sp`, stores the caller's own `pc` in slot `sp + 1`, sets `pc := nnn`, nothing else |
| Chip8Properties.ReturnPops | src/cpu.rs:146 | `00EE` sets `pc` to `stack[sp]` and decrements `sp`, nothing else |
| Chip8Properties.CallThenReturn | src/cpu.rs:146-148 | a call followed by a return restores `sp` and brings `pc` back to the call instruction's own address; only the written stack slot differs |
| Chip8Properties.StackSlotZeroNeverWritten | src/cpu.rs:197-201 | no instruction changes stack slot 0 |
| Chip8Properties.PcMovesOnUnlessJump | src/cpu.rs:143-175 | apart from `1nnn`, `2nnn`, `Bnnn` and `00EE`, every instruction moves `pc` on by 2 or 4, and by 4 only in the skip families `3`, `4`, `5`, `9` |
| Chip8Properties.SkipIfEqualByte | src/cpu.rs:149 | `3xkk` moves `pc` by 4 if `v[x] == kk` and by 2 otherwise, nothing else |
| Chip8Properties.SkipIfNotEqualByte | src/cpu.rs:150 | `4xkk` moves `pc` by 4 if `v[x] != kk` and by 2 otherwise, nothing else |
| Chip8Properties.SkipIfEqualRegisters | src/cpu.rs:151 | `5xy0` moves `pc` by 4 if `v[x] == v[y]` and by 2 otherwise, nothing else |
| Chip8Properties.SkipIfNotEqualRegisters | src/cpu.rs:163 | `9xy0` moves `pc` by 4 if `v[x] != v[y]` and by 2 otherwise, nothing else |
| Chip8Properties.LoadByte | src/cpu.rs:152 | `6xkk` sets `v[x] := kk` and advances, nothing else |
| Chip8Properties.LoadIndex | src/cpu.rs:164 | `Annn` sets `i := nnn` and advances, nothing else |
| Chip8Properties.AddByteWraps | src/cpu.rs:153 | `7xkk` sets `v[x]` to the sum mod 256; every other register, VF included, is unchanged |
| Chip8Properties.RandomByteAdded | src/cpu.rs:166 | `Cxkk` sets `v[x]` to `kk + rnd` mod 256 and advances, nothing else |
| Chip8Properties.CopyIntoY | src/cpu.rs:154 | `8xy0` sets `v[y]` to `v[x]`; `v[x]` is unchanged |
| Chip8Properties.OrRegisters | src/cpu.rs:155 | `8xy1` sets `v[x]` to `v[x]` OR `v[y]` and advances, nothing else |
| Chip8Properties.AndRegisters | src/cpu.rs:156 | `8xy2` sets `v[x] := v[x] & v[y]` and advances, nothing else |
| Chip8Properties.XorRegisters | src/cpu.rs:157 | `8xy3` sets `v[x] := v[x] ^ v[y]` and advances, nothing else |
| Chip8Properties.OrRegistersSymmetric | src/cpu.rs:249-252 | `8xy1` leaves in `v[x]` the same value that `8yx1` leaves in `v[y]`, via `Bits.OrCommutes` |
| Chip8Properties.XorTwiceRestores | src/cpu.rs:157 | `8xy3` executed twice with `x != y` restores every register; only `pc` has moved by 4 |
| Chip8Properties.OrAndWithItself | src/cpu.rs:155-156 | `8xx1` and `8xx2` change no register |
| Chip8Properties.AddWithCarry | src/cpu.rs:158 | `8xy4`: VF is 1 exactly when `v[x] + v[y] > 255` and 0 exactly otherwise; `v[x]` is the sum mod 256 unless `x` is VF; every other register is unchanged |
| Chip8Properties.SubtractWithBorrow | src/cpu.rs:159 | `8xy5`: VF is 0 exactly when `v[x] < v[y]` and 1 exactly otherwise; `v[x]` is the difference mod 256 unless `x` is VF; every other register is unchanged |
| Chip8Properties.ReverseSubtract | src/cpu.rs:161 | `8xy7` with `x, y != F`: VF is 1 exactly when `v[y] > v[x]`; `v[x]` is `v[y] - v[x]` mod 256; every other register is unchanged |
| Chip8Properties.ReverseSubtractReadsNewFlag | src/cpu.rs:306-310 | `8xF7`: the subtraction reads the flag just written into VF, not the old VF |
| Chip8Properties.ReverseSubtractIntoFlag | src/cpu.rs:306-310 | `8Fy7`: VF first gets `v[y] > VF`, then `v[y]` minus that new flag modulo 256 (0 when `y == F`); every other register is unchanged and `pc` moves on by 2 |
| Chip8Properties.ShiftRight | src/cpu.rs:160 | `8xy6` with `x != F`: VF is the low bit, `v[x]` is halved, `y` is ignored, nothing else changes |
| Chip8Properties.ShiftLeft | src/cpu.rs:162 | `8xyE` with `x != F`: VF is the high bit, `v[x]` is doubled mod 256, nothing else changes |
| Chip8Properties.ShiftFlagRegister | src/cpu.rs:297-318 | with `x == F`, `8Fy6` leaves VF as 0 and `8FyE` leaves VF as twice the old top bit |
| Chip8Properties.RunLeavesMemoryScreenTimers | src/cpu.rs:112-115 | any number of ticks leaves memory, framebuffer, timers and `opcode` unchanged |
| Chip8Examples.CallFromInitialState | tests/test_cpu.rs:49-62 | `2201` from the initial state gives `sp == 1`, `stack[1] == 0x200`, `pc == 0x201` |
| Chip8Examples.ReturnExample | tests/test_cpu.rs:27-37 | `00EE` with `sp == 1` and `stack[1] == 0x201` can run and returns to `0x201` |
| Chip8Examples.JumpExample | tests/test_cpu.rs:40-46 | `1201` sets `pc` to `0x201` |
| Chip8Examples.SkipIfEqualByteExample | tests/test_cpu.rs:65-80 | with `v[1] == 3`, `3103` moves `pc` on by 4 and `3104` by 2 |
| Chip8Examples.SkipIfNotEqualByteExample | tests/test_cpu.rs:83-99 | with `v[1] == 3`, `4101` moves `pc` on by 4 and `4103` by 2 |
| Chip8Examples.SkipIfEqualRegistersExample | tests/test_cpu.rs:102-116 | with `v[0] == v[1] == 1` and `v[2] == 0`, `5010` moves `pc` on by 4 and `5020` by 2 |
| Chip8Examples.LoadByteExample | tests/test_cpu.rs:119-129 | `61F0` sets `v[1]` to `0xF0` and moves `pc` on by 2 |
| Chip8Examples.AddImmediateExample | tests/test_cpu.rs:132-155 | `7001` on 0 gives 1 and `71FF` on 0 gives `0xFF`, each moving `pc` on by 2 |
| Chip8Examples.CopyExample | tests/test_cpu.rs:158-168 | `8010` with `v[0] == 5` leaves 5 in `v[0]` and `v[1]` and moves `pc` on by 2 |
| Chip8Examples.SkipIfNotEqualRegistersExample | tests/test_cpu.rs:332-348 | with `v[0] == 4`, `9010` moves `pc` on by 2 when `v[1] == 4` and by 4 when `v[1] == 1` |
| Chip8Examples.LoadIndexExample | tests/test_cpu.rs:351-359 | `A0FF` sets `i` to `0xFF` and moves `pc` on by 2 |
| Chip8Examples.RandomByteExample | tests/test_cpu.rs:371-378 | `C001` moves `pc` on by 2 and stores `1 + rnd` modulo 256 in `v[0]` |
| Chip8Examples.AddImmediateOverflow | tests/test_cpu.rs:132-155 | `7102` on `v[1] == 0xFF` gives `0x01` and moves `pc` on by 2 |
| Chip8Examples.AddRegistersOverflow | tests/test_cpu.rs:219-240 | `8014` on `0xF0 + 0xF0` gives `0xE0` with VF = 1 and moves `pc` on by 2 |
| Chip8Examples.AddRegistersNoCarry | tests/test_cpu.rs:219-240 | `8234` on `0x05 + 0x02` gives `0x07` with VF = 0 and moves `pc` on by 2 |
| Chip8Examples.SubtractRegistersBorrow | tests/test_cpu.rs:243-264 | `8015` on `0x08 - 0x0A` gives `0xFE` with VF = 0 and moves `pc` on by 2 |
| Chip8Examples.SubtractRegistersNoBorrow | tests/test_cpu.rs:243-264 | `8235` on `0x05 - 0x02` gives `0x03` with VF = 1 and moves `pc` on by 2 |
| Chip8Examples.ReverseSubtractNoWrap | tests/test_cpu.rs:286-308 | `8017` on `v[0] = 5, v[1] = 6` gives 1 with VF = 1 and moves `pc` on by 2 |
| Chip8Examples.ReverseSubtractWraps | tests/test_cpu.rs:286-308 | `8017` on `v[0] = 8, v[1] = 3` gives 251 with VF = 0 and moves `pc` on by 2 |
| Chip8Examples.ShiftRightEvenExample | tests/test_cpu.rs:267-283 | `8006` on 4 gives 2 with VF = 0 and moves `pc` on by 2 |
| Chip8Examples.ShiftLeftNoCarryExample | tests/test_cpu.rs:311-329 | `800E` on `0x04` gives `0x08` with VF = 0 and moves `pc` on by 2 |
| Chip8Examples.ShiftRightExample | tests/test_cpu.rs:267-283 | `8406` on 5 gives 2 with VF = 1 and moves `pc` on by 2 |
| Chip8Examples.ShiftLeftExample | tests/test_cpu.rs:311-329 | `810E` on `0x82` gives `0x04` with VF = 1 and moves `pc` on by 2 |
| Chip8Examples.OrExample | tests/test_cpu.rs:171-184 | `8011` on `0b0001` OR `0b1000` gives `0b1001` and moves `pc` on by 2 |
| Chip8Examples.AndExample | tests/test_cpu.rs:187-200 | `8012` on `0b1001 & 0b1011` gives `0b1001` and moves `pc` on by 2 |
| Chip8Examples.XorExample | tests/test_cpu.rs:203-216 | `8013` on `0b1101 ^ 0b1011` gives `0b0110` and moves `pc` on by 2 |
| Chip8Examples.JumpWithOffsetExample | tests/test_cpu.rs:362-368 | `B0CA` with `v[0] == 1` jumps to `0x0CB` |
| Chip8Examples.AddProgramFirstTick | src/cpu.rs:112-115 | on the loaded program at `0x200`, the first tick can run, loads `0x0A` into `v[0]` and reaches `0x202` |
| Chip8Examples.AddProgramSecondTick | src/cpu.rs:112-115 | the second tick loads `0x05` into `v[1]`, keeps `v[0]`, and reaches `0x204` |
| Chip8Examples.AddProgramThirdTick | src/cpu.rs:112-115 | the third tick adds to `0x0F` without carry and reaches `0x206` |
| Chip8Examples.AddProgram | src/cpu.rs:94-115 | loading `60 0A 61 05 80 14` and ticking three times can run and ends with `v[0] == 0x0F`, VF = 0, `pc == 0x206` |

## Left out

- Reading the ROM file in `load_rom` (`File::open`, `bytes()`, the `io::Result`) is left out.
  The model starts from the bytes already read. It states as a precondition that they fit
  above `0x200`; past that, the Rust indexing would panic.
- `dump_ram`, `dump_regs` and the `println!` tracing in `run_opcode` are output only, and are
  left out.
- The font table `FONT_SET` lives in `src/fonts.rs`, which is not part of this model. The
  constructor and `Initialize` take the table as a parameter. The only requirement is that it
  fits in memory.
- The random source `rand::thread_rng` is replaced by the byte `rnd`. `Tick`, `RunOpcode` and
  `Execute` take it as a parameter; only `Cxkk` uses it.
- The window, event loop and rendering in `src/lib.rs`, `src/main.rs` and `src/display.rs`
  are left out. So is the keypad.
- Features that only the tests mention are left out: a two-dimensional `gfx`, an `input`
  field, `tick(bool)`, `Cpu::default`, and the `Dxyn`, `Ex9E`, `ExA1`, `Fx07` and `Fx0A`
  handlers. The code does not dispatch any of them; the model proves they only advance
  (`Chip8Properties.DisplayKeyTimerFamiliesIgnored`).
- The timers are never decremented by the code, and the model keeps them constant.
- Rust panics become preconditions, and their failure paths are not modelled:
  - `00EE` with `sp >= 16` indexes outside the stack. With `sp == 0`, `sp -= 1` panics in a
    debug build; a release build wraps `sp` to `usize::MAX` after jumping to `stack[0]`. The
    precondition `1 <= sp` follows the debug build, and the release-build wrap is not modelled;
  - `2nnn` with `sp + 1 >= 16` indexes outside the stack;
  - `tick` with `pc + 1 >= 4096` reads outside memory.
- `pc`, the stack slots and `sp` are `usize` in Rust and unbounded naturals here. No
  wrap-around of `usize` is modelled. Apart from the release-build `sp` wrap above, no reachable
  value comes near it.
- CpuModel.Cpu.RunOpcode: the Rust `match` is a single dispatch. Here it is split into
  `RunHandler` and, for the `8xyN` arms, `RunRegisterOpcode`. The arms and their order are
  the same.
- Chip8Properties.ReverseSubtract: stated for `x, y != F` only. `y == F` is stated by
  `ReverseSubtractReadsNewFlag` and `x == F` by `ReverseSubtractIntoFlag`. The full
  behaviour for every `x` and `y` is `Chip8.Dispatch` and `CpuModel.Cpu.Op8xy7`.
- Chip8Properties.ShiftRight, Chip8Properties.ShiftLeft: stated for `x != F`. `x == F` is
  stated by `ShiftFlagRegister`.
- Chip8.Execute, Chip8.Step, Chip8.Run: their own contracts state only that array sizes are
  kept. What one instruction does is stated by the `Chip8Properties` lemmas, and the object
  layer is tied to these functions by `CpuModel.Cpu.RunOpcode` and `CpuModel.Cpu.Tick`.
