/**
 * Constants and dimensions shared by the capture engine, the render engine
 * and the effects. The archive's dimensions (MAX_NUM_REC, RECORDING_SIZE,
 * IDLE_BUFSZ) are fixed at build time in the program; here they are a value
 * of type Params, in the shape of the ASys_params record of
 * src/fine_definitions.h, so every result holds for all admissible sizes.
 */
module FineConfig {

  /** The range of a signed 16-bit sample (INT16_MIN / INT16_MAX of stdint.h). */
  const INT16_MIN: int := -32768
  const INT16_MAX: int := 32767

  /** The number of pick entries of the render engine (OPT_NUM_RECORDINGS). */
  const OPT_NUM_RECORDINGS: nat := 10

  predicate IsI16(x: int) {
    INT16_MIN <= x <= INT16_MAX
  }

  function Abs(x: int): nat {
    if x < 0 then -x else x
  }

  function Min(a: int, b: int): int {
    if a < b then a else b
  }

  function Max(a: int, b: int): int {
    if a < b then b else a
  }

  /**
   * maxNumRec     = MAX_NUM_REC, the number of archive slots
   * recordingSize = RECORDING_SIZE, the capacity of one slot in samples
   * idleBufSz     = IDLE_BUFSZ, the length of the pre-roll ring
   */
  datatype Params = Params(maxNumRec: nat, recordingSize: nat, idleBufSz: nat) {
    /** What the program's arithmetic on these sizes relies on. */
    predicate Valid() {
      maxNumRec >= 2 && 0 < idleBufSz <= recordingSize
    }
  }
}
