/** Instruction words: splitting a 16-bit opcode into its fields, and the
    program-counter directive every instruction handler returns. */
module Opcode {
  import opened Bits
  import opened Config

  type Nibble = n: int | 0 <= n < 0x10
  type Addr = a: int | 0 <= a < 0x1000

  /** The fields of an opcode `n0 n1 n2 n3`: `nnn` is the low 12 bits, `kk` the low byte,
      `x` and `y` the second and third nibbles and `n` the last. */
  datatype Decoded = Decoded(n0: Nibble, n1: Nibble, n2: Nibble, n3: Nibble,
                             nnn: Addr, kk: Byte, x: Nibble, y: Nibble, n: Nibble)

  /** How the program counter moves after an instruction. */
  datatype ProgramCounter = Next | Skip | Jump(target: nat)

  /** The opcode whose nibbles, most significant first, are `n0 n1 n2 n3`. */
  function Encode(n0: Nibble, n1: Nibble, n2: Nibble, n3: Nibble): (w: U16)
  {
    n0 * 0x1000 + n1 * 0x100 + n2 * 0x10 + n3
  }

  /** Splits an opcode into nibbles and the derived operand fields; never fails. */
  function Decode(op: U16): (d: Decoded)
    ensures Encode(d.n0, d.n1, d.n2, d.n3) == op
    ensures d.nnn == d.n1 * 0x100 + d.n2 * 0x10 + d.n3
    ensures d.kk == d.n2 * 0x10 + d.n3
    ensures d.x == d.n1 && d.y == d.n2 && d.n == d.n3
  {
    var q3, n3 := op / 0x10, op % 0x10;
    var q2, n2 := q3 / 0x10, q3 % 0x10;
    var n0, n1 := q2 / 0x10, q2 % 0x10;
    assert op == q3 * 0x10 + n3 && q3 == q2 * 0x10 + n2 && q2 == n0 * 0x10 + n1;
    Decoded(n0, n1, n2, n3, n1 * 0x100 + n2 * 0x10 + n3, n2 * 0x10 + n3, n1, n2, n3)
  }

  /** Decoding recovers the nibbles an opcode was built from: every nibble tuple
      is the decoding of exactly one opcode. */
  lemma DecodeEncode(n0: Nibble, n1: Nibble, n2: Nibble, n3: Nibble)
    ensures var d := Decode(Encode(n0, n1, n2, n3));
            d.n0 == n0 && d.n1 == n1 && d.n2 == n2 && d.n3 == n3
  {
  }

  /** The program counter after an instruction at `pc` returned the directive `c`. */
  function Advance(pc: nat, c: ProgramCounter): (r: nat)
    ensures c == Next ==> r == pc + OPCODE_SIZE
    ensures c == Skip ==> r == pc + 2 * OPCODE_SIZE
    ensures c.Jump? ==> r == c.target
  {
    match c
    case Next => pc + OPCODE_SIZE
    case Skip => pc + OPCODE_SIZE * 2
    case Jump(p) => p
  }
}
