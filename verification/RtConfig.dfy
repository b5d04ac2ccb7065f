/** Build constants (rtconfig.h, rtdef.h) the memory managers and the message queue share. */
module RtConfig {
  import opened Arithmetic

  const ALIGN_SIZE: nat := 4
  /** The largest value of a 32-bit size. */
  const MAX_SIZE: nat := 0xFFFF_FFFF

  /** RT_ALIGN to the build's alignment. */
  function AlignUp(size: nat): (r: nat)
    ensures size <= r < size + ALIGN_SIZE && r % ALIGN_SIZE == 0
    ensures size % ALIGN_SIZE == 0 ==> r == size
  {
    RoundUp(size, ALIGN_SIZE)
  }
}
