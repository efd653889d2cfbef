/** Vocabulary shared by every model of the toolkit. */
module Types {

  datatype Option<+T> = None | Some(value: T)

  /** Address of a `struct task`: non-null, and aligned so that bit 0 is free for the contention flag. */
  type TaskId = n: nat | n > 0 && n % 2 == 0 witness 2
  type FutexId = nat
  type CoreId = nat

  /** Number of values of a 32-bit word. */
  const WORD: nat := 0x1_0000_0000
  const UINT_MAX: nat := 0xFFFF_FFFF
  const WAIT_FOREVER: nat := 0xFFFF_FFFF

  const ETIMEDOUT: int := 116
  const ECANCELED: int := 140
}
