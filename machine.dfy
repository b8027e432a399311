/** The interpreter's state as a value, and one instruction's effect on it as a function.
    The `Cpu` class in module `CpuModel` is proved to follow these definitions. */
module Chip8 {
  import opened Bits
  import opened Opcode
  import opened Config

  /** Every field of the interpreter: 4096 bytes of memory, the otherwise unused `opcode`
      byte, sixteen registers `v`, the index register `i`, the program counter, the
      64 x 32 framebuffer, both timers, and sixteen stack slots with the stack pointer. */
  datatype Machine = Machine(
    memory: seq<Byte>,
    opcode: Byte,
    v: seq<Byte>,
    i: U16,
    pc: nat,
    gfx: seq<Byte>,
    delayTimer: Byte,
    soundTimer: Byte,
    stack: seq<nat>,
    sp: nat)

  /** The array sizes of the state's declaration. */
  predicate WellFormed(m: Machine)
  {
    |m.memory| == MEMORY_SIZE && |m.v| == REGISTER_COUNT && |m.gfx| == GFX_SIZE &&
    |m.stack| == STACK_SIZE
  }

  /** The state after initialisation with the font table `font`: everything zero,
      the font at the bottom of memory, and the program counter at the program start. */
  function Initial(font: seq<Byte>): (m: Machine)
    requires |font| <= MEMORY_SIZE
    ensures WellFormed(m)
    ensures m.memory[..|font|] == font
    ensures forall a :: |font| <= a < MEMORY_SIZE ==> m.memory[a] == 0
    ensures forall r :: 0 <= r < REGISTER_COUNT ==> m.v[r] == 0
    ensures forall p :: 0 <= p < GFX_SIZE ==> m.gfx[p] == 0
    ensures forall s :: 0 <= s < STACK_SIZE ==> m.stack[s] == 0
    ensures m.pc == PROGRAM_START && m.sp == 0 && m.i == 0 && m.opcode == 0
    ensures m.delayTimer == 0 && m.soundTimer == 0
  {
    Machine(font + seq(MEMORY_SIZE - |font|, _ => 0), 0, seq(REGISTER_COUNT, _ => 0), 0,
            PROGRAM_START, seq(GFX_SIZE, _ => 0), 0, 0, seq(STACK_SIZE, _ => 0), 0)
  }

  /** The program image `rom` copied into memory from the program start on. */
  function LoadRom(m: Machine, rom: seq<Byte>): (r: Machine)
    requires WellFormed(m) && |rom| <= MEMORY_SIZE - PROGRAM_START
    ensures WellFormed(r)
    ensures forall k :: 0 <= k < |rom| ==> r.memory[PROGRAM_START + k] == rom[k]
    ensures forall a :: 0 <= a < MEMORY_SIZE && !(PROGRAM_START <= a < PROGRAM_START + |rom|) ==>
              r.memory[a] == m.memory[a]
    ensures r.(memory := m.memory) == m
  {
    m.(memory := m.memory[..PROGRAM_START] + rom + m.memory[PROGRAM_START + |rom|..])
  }

  /** The instruction word at the program counter, stored big-endian: the byte at `pc`
      holds the instruction family and `x`, the byte after it holds `kk`. */
  function Fetch(m: Machine): (w: U16)
    requires WellFormed(m) && m.pc + 1 < MEMORY_SIZE
    ensures Decode(w).n0 == m.memory[m.pc] / 0x10 && Decode(w).x == m.memory[m.pc] % 0x10
    ensures Decode(w).kk == m.memory[m.pc + 1]
  {
    m.memory[m.pc] as int * 0x100 + m.memory[m.pc + 1]
  }

  predicate IsReturn(d: Decoded)
  {
    d.n0 == 0 && d.n1 == 0 && d.n2 == 0xE && d.n3 == 0xE
  }

  predicate IsCall(d: Decoded)
  {
    d.n0 == 2
  }

  /** What the instruction needs in order not to index the stack out of bounds or
      underflow the stack pointer: a return needs a pushed slot at `sp` with
      `1 <= sp`, a call needs room for `sp + 1`. */
  predicate CanDispatch(m: Machine, d: Decoded)
  {
    (IsReturn(d) ==> 1 <= m.sp < STACK_SIZE) &&
    (IsCall(d) ==> m.sp + 1 < STACK_SIZE)
  }

  /** The effect of the handler the nibble tuple selects, and the directive it returns.
      `rnd` is the random byte drawn by `Cxkk`. Tuples no arm matches do nothing and
      return `Next`. */
  function Dispatch(m: Machine, d: Decoded, rnd: Byte): (r: (Machine, ProgramCounter))
    requires WellFormed(m) && CanDispatch(m, d)
    ensures WellFormed(r.0)
    ensures r.0.pc == m.pc
    ensures r.0.memory == m.memory && r.0.gfx == m.gfx && r.0.opcode == m.opcode
    ensures r.0.delayTimer == m.delayTimer && r.0.soundTimer == m.soundTimer
  {
    var x, y := d.x, d.y;
    match (d.n0, d.n1, d.n2, d.n3)
    case (0x0, 0x0, 0xE, 0x0) => (m, Next)
    case (0x0, 0x0, 0xE, 0xE) => (m.(sp := m.sp - 1), Jump(m.stack[m.sp]))
    case (0x1, _, _, _) => (m, Jump(d.nnn))
    case (0x2, _, _, _) => (m.(sp := m.sp + 1, stack := m.stack[m.sp + 1 := m.pc]), Jump(d.nnn))
    case (0x3, _, _, _) => (m, if m.v[x] == d.kk then Skip else Next)
    case (0x4, _, _, _) => (m, if m.v[x] != d.kk then Skip else Next)
    case (0x5, _, _, 0x0) => (m, if m.v[x] == m.v[y] then Skip else Next)
    case (0x6, _, _, _) => (m.(v := m.v[x := d.kk]), Next)
    case (0x7, _, _, _) => (m.(v := m.v[x := (m.v[x] as int + d.kk) % 0x100]), Next)
    case (0x8, _, _, 0x0) => (m.(v := m.v[y := m.v[x]]), Next)
    case (0x8, _, _, 0x1) => (m.(v := m.v[x := Or8(m.v[x], m.v[y])]), Next)
    case (0x8, _, _, 0x2) => (m.(v := m.v[x := And8(m.v[x], m.v[y])]), Next)
    case (0x8, _, _, 0x3) => (m.(v := m.v[x := Xor8(m.v[x], m.v[y])]), Next)
    case (0x8, _, _, 0x4) =>
      var vx, vy := m.v[x], m.v[y];
      (m.(v := m.v[x := (vx as int + vy) % 0x100][VF := if vx as int + vy > 0xFF then 1 else 0]), Next)
    case (0x8, _, _, 0x5) =>
      var vx, vy := m.v[x], m.v[y];
      (m.(v := m.v[x := (vx as int - vy) % 0x100][VF := if vx < vy then 0 else 1]), Next)
    case (0x8, _, _, 0x6) =>
      var w := m.v[VF := m.v[x] % 2];
      (m.(v := w[x := w[x] / 2]), Next)
    case (0x8, _, _, 0x7) =>
      var w := m.v[VF := if m.v[y] > m.v[x] then 1 else 0];
      (m.(v := w[x := (w[y] as int - w[x]) % 0x100]), Next)
    case (0x8, _, _, 0xE) =>
      var w := m.v[VF := m.v[x] / 0x80];
      (m.(v := w[x := w[x] as int * 2 % 0x100]), Next)
    case (0x9, _, _, 0x0) => (m, if m.v[x] != m.v[y] then Skip else Next)
    case (0xA, _, _, _) => (m.(i := d.nnn), Next)
    case (0xB, _, _, _) => (m, Jump(d.nnn + m.v[0]))
    case (0xC, _, _, _) => (m.(v := m.v[x := (d.kk as int + rnd) % 0x100]), Next)
    case _ => (m, Next)
  }

  /** `run_opcode`: decode, dispatch, then move the program counter as directed. */
  function Execute(m: Machine, op: U16, rnd: Byte): (r: Machine)
    requires WellFormed(m) && CanDispatch(m, Decode(op))
    ensures WellFormed(r)
  {
    var (m', c) := Dispatch(m, Decode(op), rnd);
    m'.(pc := Advance(m'.pc, c))
  }

  /** What `tick` needs: both bytes of the instruction word in memory, and a
      dispatchable instruction. */
  predicate CanStep(m: Machine)
  {
    WellFormed(m) && m.pc + 1 < MEMORY_SIZE && CanDispatch(m, Decode(Fetch(m)))
  }

  /** `tick`: fetch the word at the program counter and execute it. */
  function Step(m: Machine, rnd: Byte): (r: Machine)
    requires CanStep(m)
    ensures WellFormed(r)
  {
    Execute(m, Fetch(m), rnd)
  }

  /** Whether `|rnds|` consecutive ticks, the k-th drawing the random byte `rnds[k]`,
      can all run. */
  predicate CanRun(m: Machine, rnds: seq<Byte>)
    decreases |rnds|
  {
    rnds == [] || (CanStep(m) && CanRun(Step(m, rnds[0]), rnds[1..]))
  }

  /** The state after `|rnds|` consecutive ticks, as a driver calling `tick` repeatedly sees it. */
  function Run(m: Machine, rnds: seq<Byte>): (r: Machine)
    requires WellFormed(m) && CanRun(m, rnds)
    ensures WellFormed(r)
    decreases |rnds|
  {
    if rnds == [] then m else Run(Step(m, rnds[0]), rnds[1..])
  }
}
