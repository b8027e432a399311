/** The interpreter object: its state lives in fields and arrays that every
    operation updates in place, and each operation is proved to produce the state
    that module `Chip8` defines. */
module CpuModel {
  import opened Bits
  import opened Opcode
  import opened Config
  import opened Chip8

  class Cpu {
    const memory: array<Byte>
    var opcode: Byte
    const v: array<Byte>
    /** Index register. */
    var i: U16
    /** Program counter. */
    var pc: nat
    /** Framebuffer, 64 x 32 pixels. */
    const gfx: array<Byte>
    var delayTimer: Byte
    var soundTimer: Byte
    const stack: array<nat>
    var sp: nat

    ghost predicate Valid()
    {
      memory.Length == MEMORY_SIZE && v.Length == REGISTER_COUNT &&
      gfx.Length == GFX_SIZE && stack.Length == STACK_SIZE
    }

    /** The whole state as a value. */
    ghost function State(): (m: Machine)
      requires Valid()
      reads this, memory, v, gfx, stack
      ensures WellFormed(m)
    {
      Machine(memory[..], opcode, v[..], i, pc, gfx[..], delayTimer, soundTimer, stack[..], sp)
    }

    /** `Cpu::new`: allocate the state, then initialise it with the font table `font`. */
    constructor (font: seq<Byte>)
      requires |font| <= MEMORY_SIZE
      ensures Valid() && State() == Initial(font)
      ensures fresh(memory) && fresh(v) && fresh(gfx) && fresh(stack)
    {
      memory := new Byte[MEMORY_SIZE];
      v := new Byte[REGISTER_COUNT];
      gfx := new Byte[GFX_SIZE];
      stack := new nat[STACK_SIZE];
      new;
      Initialize(font);
    }

    /** Zeroes every register, buffer and counter, starts the program counter at the
        program start and loads the font table into the bottom of memory. */
    method Initialize(font: seq<Byte>)
      requires Valid() && |font| <= MEMORY_SIZE
      modifies this, memory, v, gfx, stack
      ensures Valid() && State() == Initial(font)
    {
      pc := PROGRAM_START;
      opcode := 0;
      i := 0;
      forall r | 0 <= r < v.Length {
        v[r] := 0;
      }
      forall p | 0 <= p < gfx.Length {
        gfx[p] := 0;
      }
      forall s | 0 <= s < stack.Length {
        stack[s] := 0;
      }
      sp := 0;
      forall a | 0 <= a < memory.Length {
        memory[a] := 0;
      }
      delayTimer := 0;
      soundTimer := 0;
      LoadFonts(font);
      assert memory[..] == Initial(font).memory;
    }

    /** Copies the font table byte by byte to the start of memory. */
    method LoadFonts(font: seq<Byte>)
      requires Valid() && |font| <= MEMORY_SIZE
      modifies memory
      ensures memory[..] == font + old(memory[..])[|font|..]
    {
      for k := 0 to |font|
        invariant forall a :: 0 <= a < k ==> memory[a] == font[a]
        invariant forall a :: k <= a < memory.Length ==> memory[a] == old(memory[a])
      {
        memory[k] := font[k];
      }
      assert memory[..] == font + old(memory[..])[|font|..];
    }

    /** The copy `load_rom` performs once the file's bytes are read: `rom[k]` goes to
        address `0x200 + k`. */
    method LoadRom(rom: seq<Byte>)
      requires Valid() && |rom| <= MEMORY_SIZE - PROGRAM_START
      modifies memory
      ensures State() == Chip8.LoadRom(old(State()), rom)
    {
      for k := 0 to |rom|
        invariant forall a :: 0 <= a < k ==> memory[PROGRAM_START + a] == rom[a]
        invariant forall a :: 0 <= a < memory.Length && !(PROGRAM_START <= a < PROGRAM_START + k) ==>
                    memory[a] == old(memory[a])
      {
        memory[PROGRAM_START + k] := rom[k];
      }
      assert memory[..] == Chip8.LoadRom(old(State()), rom).memory;
    }

    /** Reads the big-endian instruction word at the program counter. */
    method ReadWord() returns (w: U16)
      requires Valid() && pc + 1 < MEMORY_SIZE
      ensures w == memory[pc] as int * 0x100 + memory[pc + 1]
      ensures w == Fetch(State())
    {
      w := memory[pc] as int * 0x100 + memory[pc + 1];
    }

    /** Fetches the instruction at the program counter and runs it; `rnd` is the byte
        `Cxkk` would draw. */
    method Tick(rnd: Byte)
      requires Valid() && CanStep(State())
      modifies this, v, stack
      ensures Valid() && State() == Step(old(State()), rnd)
    {
      var op := ReadWord();
      RunOpcode(op, rnd);
    }

    /** Decodes `op`, runs the handler its nibble tuple selects and moves the program
        counter as the handler directs. */
    method RunOpcode(op: U16, rnd: Byte)
      requires Valid() && CanDispatch(State(), Decode(op))
      modifies this, v, stack
      ensures Valid() && State() == Execute(old(State()), op, rnd)
    {
      var pcChange := RunHandler(Decode(op), rnd);
      match pcChange {
        case Next => pc := pc + OPCODE_SIZE;
        case Skip => pc := pc + OPCODE_SIZE * 2;
        case Jump(p) => pc := p;
      }
    }

    /** The dispatch over the nibble tuple: runs the selected handler and returns its
        directive; a tuple without an arm returns `Next`. */
    method RunHandler(d: Decoded, rnd: Byte) returns (pcChange: ProgramCounter)
      requires Valid() && CanDispatch(State(), d)
      modifies this`sp, this`i, v, stack
      ensures var (m, c) := Dispatch(old(State()), d, rnd);
              v[..] == m.v && stack[..] == m.stack && sp == m.sp && i == m.i && pcChange == c
    {
      var x, y, nnn, kk := d.x, d.y, d.nnn, d.kk;
      match (d.n0, d.n1, d.n2, d.n3) {
        case (0x0, 0x0, 0xE, 0x0) => pcChange := Op00E0();
        case (0x0, 0x0, 0xE, 0xE) => pcChange := Op00EE();
        case (0x1, _, _, _) => pcChange := Op1nnn(nnn);
        case (0x2, _, _, _) => pcChange := Op2nnn(nnn);
        case (0x3, _, _, _) => pcChange := Op3xkk(x, kk);
        case (0x4, _, _, _) => pcChange := Op4xkk(x, kk);
        case (0x5, _, _, 0x0) => pcChange := Op5xy0(x, y);
        case (0x6, _, _, _) => pcChange := Op6xkk(x, kk);
        case (0x7, _, _, _) => pcChange := Op7xkk(x, kk);
        case (0x8, _, _, _) => pcChange := RunRegisterOpcode(d);
        case (0x9, _, _, 0x0) => pcChange := Op9xy0(x, y);
        case (0xA, _, _, _) => pcChange := OpAnnn(nnn);
        case (0xB, _, _, _) => pcChange := OpBnnn(nnn);
        case (0xC, _, _, _) => pcChange := OpCxkk(x, kk, rnd);
        case _ => pcChange := Next;
      }
    }

    /** The `8xyN` arms of the dispatch, in the same order; an `N` without an arm falls
        to the default, which returns `Next`. */
    method RunRegisterOpcode(d: Decoded) returns (pcChange: ProgramCounter)
      requires Valid() && d.n0 == 0x8
      modifies v
      ensures v[..] == Dispatch(old(State()), d, 0).0.v && pcChange == Dispatch(old(State()), d, 0).1
    {
      var x, y := d.x, d.y;
      match d.n3 {
        case 0x0 => pcChange := Op8xy0(x, y);
        case 0x1 => pcChange := Op8xy1(x, y);
        case 0x2 => pcChange := Op8xy2(x, y);
        case 0x3 => pcChange := Op8xy3(x, y);
        case 0x4 => pcChange := Op8xy4(x, y);
        case 0x5 => pcChange := Op8xy5(x, y);
        case 0x6 => pcChange := Op8x06(x);
        case 0x7 => pcChange := Op8xy7(x, y);
        case 0xE => pcChange := Op8x0E(x);
        case _ => pcChange := Next;
      }
    }

    /** `00E0`, clear the screen: a stub that only moves on to the next instruction. */
    method Op00E0() returns (c: ProgramCounter)
      ensures c == Next
    {
      c := Next;
    }

    /** `00EE`, return: jump to the address in slot `sp`, then decrement `sp`. */
    method Op00EE() returns (c: ProgramCounter)
      requires Valid() && 1 <= sp < STACK_SIZE
      modifies this`sp
      ensures sp == old(sp) - 1 && c == Jump(stack[old(sp)])
    {
      var p := stack[sp];
      sp := sp - 1;
      c := Jump(p);
    }

    /** `1nnn`, jump to `nnn`. */
    method Op1nnn(nnn: Addr) returns (c: ProgramCounter)
      ensures c == Jump(nnn)
    {
      c := Jump(nnn);
    }

    /** `2nnn`, call: increment `sp`, store the current program counter (the address of
        this call) in slot `sp`, jump to `nnn`. */
    method Op2nnn(nnn: Addr) returns (c: ProgramCounter)
      requires Valid() && sp + 1 < STACK_SIZE
      modifies this`sp, stack
      ensures sp == old(sp) + 1 && stack[..] == old(stack[..])[sp := pc]
      ensures c == Jump(nnn)
    {
      sp := sp + 1;
      stack[sp] := pc;
      c := Jump(nnn);
    }

    /** `3xkk`: skip the next instruction exactly when `v[x] == kk`. */
    method Op3xkk(x: Nibble, kk: Byte) returns (c: ProgramCounter)
      requires Valid()
      ensures c == Skip || c == Next
      ensures c == Skip <==> v[x] == kk
    {
      if v[x] == kk {
        return Skip;
      }
      c := Next;
    }

    /** `4xkk`: skip the next instruction exactly when `v[x] != kk`. */
    method Op4xkk(x: Nibble, kk: Byte) returns (c: ProgramCounter)
      requires Valid()
      ensures c == Skip || c == Next
      ensures c == Skip <==> v[x] != kk
    {
      if v[x] != kk {
        return Skip;
      }
      c := Next;
    }

    /** `5xy0`: skip the next instruction exactly when `v[x] == v[y]`. */
    method Op5xy0(x: Nibble, y: Nibble) returns (c: ProgramCounter)
      requires Valid()
      ensures c == Skip || c == Next
      ensures c == Skip <==> v[x] == v[y]
    {
      if v[x] == v[y] {
        return Skip;
      }
      c := Next;
    }

    /** `6xkk`: `v[x] := kk`. */
    method Op6xkk(x: Nibble, kk: Byte) returns (c: ProgramCounter)
      requires Valid()
      modifies v
      ensures v[..] == old(v[..])[x := kk] && c == Next
    {
      v[x] := kk;
      c := Next;
    }

    /** `7xkk`: `v[x] := v[x] + kk` modulo 256; VF is not touched. */
    method Op7xkk(x: Nibble, kk: Byte) returns (c: ProgramCounter)
      requires Valid()
      modifies v
      ensures v[..] == old(v[..])[x := (old(v[x]) as int + kk) % 0x100] && c == Next
    {
      var vx := v[x];
      var r := OverflowingAdd(vx, kk);
      v[x] := r.0;
      c := Next;
    }

    /** `8xy0`, as written: copies `v[x]` into `v[y]`. */
    method Op8xy0(x: Nibble, y: Nibble) returns (c: ProgramCounter)
      requires Valid()
      modifies v
      ensures v[..] == old(v[..])[y := old(v[x])] && c == Next
    {
      v[y] := v[x];
      c := Next;
    }

    /** `8xy1`: `v[x] := v[x] | v[y]`. */
    method Op8xy1(x: Nibble, y: Nibble) returns (c: ProgramCounter)
      requires Valid()
      modifies v
      ensures v[..] == old(v[..])[x := Or8(old(v[x]), old(v[y]))] && c == Next
    {
      v[x] := Or8(v[x], v[y]);
      c := Next;
    }

    /** `8xy2`: `v[x] := v[x] & v[y]`. */
    method Op8xy2(x: Nibble, y: Nibble) returns (c: ProgramCounter)
      requires Valid()
      modifies v
      ensures v[..] == old(v[..])[x := And8(old(v[x]), old(v[y]))] && c == Next
    {
      v[x] := And8(v[x], v[y]);
      c := Next;
    }

    /** `8xy3`: `v[x] := v[x] ^ v[y]`. */
    method Op8xy3(x: Nibble, y: Nibble) returns (c: ProgramCounter)
      requires Valid()
      modifies v
      ensures v[..] == old(v[..])[x := Xor8(old(v[x]), old(v[y]))] && c == Next
    {
      v[x] := Xor8(v[x], v[y]);
      c := Next;
    }

    /** `8xy4`: `v[x] := v[x] + v[y]` modulo 256, then VF := 1 if the sum exceeded 255, else 0. */
    method Op8xy4(x: Nibble, y: Nibble) returns (c: ProgramCounter)
      requires Valid()
      modifies v
      ensures var vx, vy := old(v[x]), old(v[y]);
              v[..] == old(v[..])[x := (vx as int + vy) % 0x100][VF := if vx as int + vy > 0xFF then 1 else 0]
      ensures c == Next
    {
      var vx := v[x];
      var oa := OverflowingAdd(vx, v[y]);
      v[x] := oa.0;
      if oa.1 {
        v[VF] := 1;
      } else {
        v[VF] := 0;
      }
      c := Next;
    }

    /** `8xy5`: `v[x] := v[x] - v[y]` modulo 256, then VF := 0 if it borrowed, else 1. */
    method Op8xy5(x: Nibble, y: Nibble) returns (c: ProgramCounter)
      requires Valid()
      modifies v
      ensures var vx, vy := old(v[x]), old(v[y]);
              v[..] == old(v[..])[x := (vx as int - vy) % 0x100][VF := if vx < vy then 0 else 1]
      ensures c == Next
    {
      var vx := v[x];
      var oa := OverflowingSub(vx, v[y]);
      v[x] := oa.0;
      if oa.1 {
        v[VF] := 0;
      } else {
        v[VF] := 1;
      }
      c := Next;
    }

    /** `8xy6` (`y` unused): VF := the low bit of `v[x]`, then `v[x]` is halved. */
    method Op8x06(x: Nibble) returns (c: ProgramCounter)
      requires Valid()
      modifies v
      ensures var w := old(v[..])[VF := old(v[x]) % 2];
              v[..] == w[x := w[x] / 2]
      ensures c == Next
    {
      LowBitOfByte(v[x]);
      v[VF] := And8(v[x], 1);
      v[x] := v[x] / 2;
      c := Next;
    }

    /** `8xy7`: VF := 1 if `v[y] > v[x]`, else 0; then `v[x] := v[y] - v[x]` modulo 256. */
    method Op8xy7(x: Nibble, y: Nibble) returns (c: ProgramCounter)
      requires Valid()
      modifies v
      ensures var w := old(v[..])[VF := if old(v[y]) > old(v[x]) then 1 else 0];
              v[..] == w[x := (w[y] as int - w[x]) % 0x100]
      ensures c == Next
    {
      v[VF] := if v[y] > v[x] then 1 else 0;
      v[x] := WrappingSub(v[y], v[x]);
      c := Next;
    }

    /** `8xyE` (`y` unused): VF := the high bit of `v[x]`, then `v[x]` is doubled modulo 256. */
    method Op8x0E(x: Nibble) returns (c: ProgramCounter)
      requires Valid()
      modifies v
      ensures var w := old(v[..])[VF := old(v[x]) / 0x80];
              v[..] == w[x := w[x] as int * 2 % 0x100]
      ensures c == Next
    {
      HighBitOfByte(v[x]);
      v[VF] := And8(v[x], 0x80) / 0x80;
      v[x] := v[x] as int * 2 % 0x100;
      c := Next;
    }

    /** `9xy0`: skip the next instruction exactly when `v[x] != v[y]`. */
    method Op9xy0(x: Nibble, y: Nibble) returns (c: ProgramCounter)
      requires Valid()
      ensures c == Skip || c == Next
      ensures c == Skip <==> v[x] != v[y]
    {
      if v[x] != v[y] {
        return Skip;
      }
      c := Next;
    }

    /** `Annn`: `i := nnn`. */
    method OpAnnn(nnn: Addr) returns (c: ProgramCounter)
      modifies this`i
      ensures i == nnn && c == Next
    {
      i := nnn;
      c := Next;
    }

    /** `Bnnn`: jump to `nnn + v[0]`. */
    method OpBnnn(nnn: Addr) returns (c: ProgramCounter)
      requires Valid()
      ensures c == Jump(nnn + v[0])
    {
      c := Jump(nnn + v[0]);
    }

    /** `Cxkk`, as written: `v[x] := kk + rnd` modulo 256, where `rnd` is the random byte. */
    method OpCxkk(x: Nibble, kk: Byte, rnd: Byte) returns (c: ProgramCounter)
      requires Valid()
      modifies v
      ensures v[..] == old(v[..])[x := (kk as int + rnd) % 0x100] && c == Next
    {
      v[x] := WrappingAdd(kk, rnd);
      c := Next;
    }
  }
}
