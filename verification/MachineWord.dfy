// Machine words of 32 bits.

module MachineWord {
  const WORD32: int := 0x1_0000_0000

  // Reduction to an unsigned word.
  function U32(x: int): int { x % WORD32 }
}
