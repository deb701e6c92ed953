/** Basic vocabulary shared by every pallet of the model: bytes, accounts,
    block numbers, and the Option/Result wrappers used for dispatch outcomes. */
module Common {

  /** One byte of a `Vec<u8>`. */
  newtype Byte = x: int | 0 <= x < 256

  /** A `Vec<u8>`: proof keys, secrets, addresses, e-mails, passwords. */
  type Bytes = seq<Byte>

  /** The runtime's `AccountId`, opaque to the pallets. */
  type AccountId = nat

  /** The value `Default::default()` yields for an account; a `ValueQuery`
      read of an absent entry returns it in the account position. */
  const DefaultAccount: AccountId := 0

  /** The runtime's `BlockNumber`; the pallets only store it, never compute with it. */
  type BlockNumber = nat

  datatype Option<+T> = None | Some(value: T)

  /** The outcome of a dispatchable: `Ok` with what it produced, or the
      pallet error it returned. */
  datatype Result<+T, +E> = Ok(value: T) | Err(error: E)
}
