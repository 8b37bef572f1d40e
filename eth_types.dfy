/** The fixed-width values of the `ethereum_types` crate. */
module EthTypes {

  const TWO_TO_THE_64: int := 0x1_0000_0000_0000_0000
  const TWO_TO_THE_256: int :=
    0x1_0000_0000_0000_0000_0000_0000_0000_0000_0000_0000_0000_0000_0000_0000_0000_0000

  type Byte = b: int | 0 <= b < 256

  /** u64 */
  type U64 = n: int | 0 <= n < TWO_TO_THE_64

  /** U256: a 256-bit unsigned integer. */
  type U256 = n: int | 0 <= n < TWO_TO_THE_256

  /** Address (H160): 20 bytes. */
  type Address = s: seq<Byte> | |s| == 20 witness seq(20, _ => 0)

  /** H256: 32 bytes. */
  type H256 = s: seq<Byte> | |s| == 32 witness seq(32, _ => 0)
}
