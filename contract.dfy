/**
 * The counter-and-whitelist contract. One object holds the persisted record;
 * each execute handler is a load-check-mutate-save cycle on it that commits
 * only when it succeeds, and the queries read it.
 */
module CounterContract {
  import opened Types
  import opened Bank
  import opened Whitelist

  class Contract {
    var count: Int32
    var owner: Addr
    var whitelist: seq<string>

    /** The persisted record as a value. */
    function Snapshot(): State
      reads this
    {
      State(count, owner, whitelist)
    }

    /** Creates the record; the caller becomes the owner and the list is kept as given. */
    static method Instantiate(sender: Addr, msg: InstantiateMsg) returns (c: Contract, res: Response)
      ensures fresh(c)
      ensures c.Snapshot() == State(msg.count, sender, msg.whitelist)
      ensures res.messages == []
    {
      c := new Contract;
      c.count, c.owner, c.whitelist := msg.count, sender, msg.whitelist;
      res := Response([]);
    }

    /** Routes an execute message to its handler; `balance` is what the ledger reports for a distribution's denomination. */
    method Execute(sender: Addr, msg: ExecuteMsg, balance: Uint128) returns (r: Result<Response>)
      modifies this
      ensures owner == old(owner)
      ensures r.Err? ==> Snapshot() == old(Snapshot())
      ensures r.Ok? ==> r.value.messages == []
      ensures sender != owner && !msg.Increment? ==> r == Err(Unauthorized)
      ensures msg.Increment? ==>
                && whitelist == old(whitelist)
                && (r.Ok? <==> old(count) < I32_MAX)
                && (r.Ok? ==> count == old(count) + 1)
      ensures msg.Reset? ==>
                && whitelist == old(whitelist)
                && (r.Ok? <==> sender == owner)
                && (r.Ok? ==> count == msg.count)
      ensures msg.Add? ==>
                && count == old(count)
                && (r.Ok? <==> sender == owner)
                && (r.Ok? ==> whitelist == old(whitelist) + msg.whitelist)
      ensures msg.Remove? ==>
                && count == old(count)
                && (r.Ok? <==> sender == owner)
                && (r.Ok? ==> whitelist == Without(old(whitelist), msg.whitelist))
      ensures msg.Distribute? ==>
                && Snapshot() == old(Snapshot())
                && (r.Ok? <==> sender == owner && msg.amount * |whitelist| <= balance)
    {
      match msg
      case Increment =>
        r := TryIncrement();
      case Reset(newCount) =>
        r := TryReset(sender, newCount);
      case Add(addresses) =>
        r := TryAddWhitelist(sender, addresses);
      case Remove(addresses) =>
        r := TryRemoveWhitelist(sender, addresses);
      case Distribute(amount, denom) =>
        var plan;
        r, plan := TryTokenDistribute(sender, amount, denom, balance);
    }

    /** Anyone may add one to the counter; at the top of the `i32` range the call fails and commits nothing. */
    method TryIncrement() returns (r: Result<Response>)
      modifies this
      ensures owner == old(owner) && whitelist == old(whitelist)
      ensures old(count) < I32_MAX ==> r == Ok(Response([])) && count == old(count) + 1
      ensures old(count) == I32_MAX ==> r == Err(Overflow) && count == old(count)
    {
      if count == I32_MAX {
        return Err(Overflow);
      }
      count := count + 1;
      r := Ok(Response([]));
    }

    /** The owner overwrites the counter with any `i32`; anyone else is refused and nothing changes. */
    method TryReset(sender: Addr, newCount: Int32) returns (r: Result<Response>)
      modifies this
      ensures owner == old(owner) && whitelist == old(whitelist)
      ensures sender != owner ==> r == Err(Unauthorized) && count == old(count)
      ensures sender == owner ==> r == Ok(Response([])) && count == newCount
    {
      if sender != owner {
        return Err(Unauthorized);
      }
      count := newCount;
      r := Ok(Response([]));
    }

    /** The owner appends `addresses` to the whitelist, duplicates included; anyone else is refused. */
    method TryAddWhitelist(sender: Addr, addresses: seq<string>) returns (r: Result<Response>)
      modifies this
      ensures owner == old(owner) && count == old(count)
      ensures sender != owner ==> r == Err(Unauthorized) && whitelist == old(whitelist)
      ensures sender == owner ==> r == Ok(Response([])) && whitelist == old(whitelist) + addresses
    {
      if sender != owner {
        return Err(Unauthorized);
      }
      whitelist := whitelist + addresses;
      r := Ok(Response([]));
    }

    /** The owner drops every entry whose value is in `addresses`; anyone else is refused. */
    method TryRemoveWhitelist(sender: Addr, addresses: seq<string>) returns (r: Result<Response>)
      modifies this
      ensures owner == old(owner) && count == old(count)
      ensures sender != owner ==> r == Err(Unauthorized) && whitelist == old(whitelist)
      ensures sender == owner ==> r == Ok(Response([])) && whitelist == Without(old(whitelist), addresses)
    {
      if sender != owner {
        return Err(Unauthorized);
      }
      whitelist := Without(whitelist, addresses);
      r := Ok(Response([]));
    }

    /**
     * The owner's payout check. It needs `amount` times the whitelist length
     * (a `u128` product that must not overflow) to be covered by `balance`,
     * the contract's balance in `denom`, and then builds one transfer per
     * whitelist entry. The transfers come back in `plan`; the response itself
     * carries none of them. The method has no `modifies` clause: the record
     * is only read.
     */
    method TryTokenDistribute(sender: Addr, amount: Uint128, denom: string, balance: Uint128)
      returns (r: Result<Response>, plan: seq<BankMsg>)
      ensures sender != owner ==> r == Err(Unauthorized)
      ensures sender == owner && amount * |whitelist| > U128_MAX ==> r == Err(Overflow)
      ensures sender == owner && amount * |whitelist| <= U128_MAX && balance < amount * |whitelist| ==>
                r == Err(InsufficientError)
      ensures r.Ok? <==> sender == owner && amount * |whitelist| <= balance
      ensures r.Err? ==> plan == []
      ensures r.Ok? ==> r.value.messages == [] && PaysEach(plan, whitelist, amount, denom)
      ensures r.Ok? ==> Disbursed(plan, denom) <= balance
    {
      plan := [];
      if sender != owner {
        return Err(Unauthorized), plan;
      }
      var recipients := QueryWhitelist().whitelist;
      var len := |recipients|;
      if amount * len > U128_MAX {
        return Err(Overflow), plan;
      }
      var total: Uint128 := amount * len;
      if balance < total {
        return Err(InsufficientError), plan;
      }
      var messages: seq<BankMsg> := [];
      for i := 0 to len
        invariant PaysEach(messages, recipients[..i], amount, denom)
      {
        messages := messages + [Send(recipients[i], [Coin(denom, amount)])];
      }
      assert recipients[..len] == recipients;
      PaysEachDisbursed(messages, recipients, amount, denom);
      plan := messages;
      r := Ok(Response([]));
    }

    /** The counter as stored. */
    function QueryCount(): (r: QueryResponse)
      reads this
      ensures r.CountResponse? && r.count == Snapshot().count
    {
      CountResponse(count)
    }

    /** The whitelist as stored, order and duplicates included. */
    function QueryWhitelist(): (r: QueryResponse)
      reads this
      ensures r.WhitelistResponse? && r.whitelist == Snapshot().whitelist
    {
      WhitelistResponse(whitelist)
    }

    /** Routes a query message; a query only reads the record. */
    function Query(msg: QueryMsg): (r: QueryResponse)
      reads this
      ensures msg.GetCount? ==> r == CountResponse(count)
      ensures msg.GetWhitelist? ==> r == WhitelistResponse(whitelist)
    {
      match msg
      case GetCount => QueryCount()
      case GetWhitelist => QueryWhitelist()
    }
  }
}
