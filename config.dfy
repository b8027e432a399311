/** Fixed sizes of the machine: the constants exported by the crate root and the
    array sizes the interpreter's state is declared with. */
module Config {
  /** Every instruction is two bytes long. */
  const OPCODE_SIZE: nat := 2
  /** The screen is 64 pixels wide and 32 high. */
  const C8_WIDTH: nat := 64
  const C8_HEIGHT: nat := 32

  const MEMORY_SIZE: nat := 4096
  const REGISTER_COUNT: nat := 16
  const STACK_SIZE: nat := 16
  const GFX_SIZE: nat := C8_WIDTH * C8_HEIGHT

  /** Programs are loaded, and execution starts, here; the bytes below hold the font. */
  const PROGRAM_START: nat := 0x200

  /** Index of the flag register VF. */
  const VF: nat := 0xF
}
