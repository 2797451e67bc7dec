/** Fixed-width integers and the `bitcoin` crate types that the wallet and the CLI
    only pass around; their internals are not modelled. */
module BitcoinTypes {

  newtype u8 = x: int | 0 <= x < 0x100

  newtype u32 = x: int | 0 <= x < 0x1_0000_0000

  /** `bitcoin::Amount`: a number of satoshis held in a `u64`. */
  newtype Amount = x: int | 0 <= x < 0x1_0000_0000_0000_0000

  /** `bitcoin::ScriptBuf`: the raw bytes of a script. */
  type ScriptBuf = seq<u8>
}
