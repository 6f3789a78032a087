/**
 * Value types of the counter-and-whitelist contract: the persisted record,
 * the messages the entry points accept, the responses they produce and the
 * errors they report.
 */
module Types {

  const I32_MIN: int := -0x8000_0000
  const I32_MAX: int := 0x7FFF_FFFF
  const U128_MAX: int := 0xFFFF_FFFF_FFFF_FFFF_FFFF_FFFF_FFFF_FFFF

  /** Rust's `i32`: the type of the counter. */
  type Int32 = x: int | I32_MIN <= x <= I32_MAX

  /** Rust's `u128` and the host's `Uint128`: payout amounts and balances. */
  type Uint128 = x: int | 0 <= x <= U128_MAX

  /** A caller or owner identity; compared by exact equality. */
  type Addr = string

  /** The single persisted record. */
  datatype State = State(count: Int32, owner: Addr, whitelist: seq<string>)

  /**
   * The errors a handler reports. `Overflow` stands for the arithmetic
   * overflow panic of the compiled contract, which aborts the call without
   * committing anything.
   */
  datatype ContractError = Unauthorized | InsufficientError | Overflow

  datatype Result<T> = Ok(value: T) | Err(error: ContractError)

  /** An amount of one denomination. */
  datatype Coin = Coin(denom: string, amount: Uint128)

  /** A bank transfer instruction for the host's executor. */
  datatype BankMsg = Send(toAddress: string, amount: seq<Coin>)

  /** What a handler hands back to the host: the messages it wants executed. */
  datatype Response = Response(messages: seq<BankMsg>)

  datatype InstantiateMsg = InstantiateMsg(count: Int32, whitelist: seq<string>)

  datatype ExecuteMsg =
    | Increment
    | Reset(count: Int32)
    | Add(whitelist: seq<string>)
    | Remove(whitelist: seq<string>)
    | Distribute(amount: Uint128, denom: string)

  datatype QueryMsg = GetCount | GetWhitelist

  datatype QueryResponse =
    | CountResponse(count: Int32)
    | WhitelistResponse(whitelist: seq<string>)
}
