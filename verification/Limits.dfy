/** The bit lengths at which the operations on decimals give up. */
module Limits {
  import opened Decimals
  import opened DecimalText
  import opened Emission

  const B64: int := 0x1_0000_0000_0000_0000
  const B256: int := B64 * B64 * (B64 * B64)
  const B1024: int := B256 * B256 * (B256 * B256)

  /** Emission gives up at 256 + 59 bits, the parser of big decimals at 1024, and arithmetic on them
      at 1024 + 64 + 56. */
  lemma LimitsAre()
    ensures DEC_LIMIT == B256 * 0x800_0000_0000_0000
    ensures PARSE_LIMIT == B1024
    ensures DECIMAL_LIMIT == B1024 * (B64 * 0x100_0000_0000_0000)
  {
  }
}
