/**
 * The contract's unit tests as scenarios: each method runs the same calls on
 * a fresh contract and its postcondition states what the test asserts.
 */
module ContractTests {
  import opened Types
  import opened CounterContract

  /** Instantiating with count 17 emits no messages and a count query answers 17. */
  method ProperInitialization() returns (messageCount: nat, count: Int32)
    ensures messageCount == 0 && count == 17
  {
    var c, res := Contract.Instantiate("creator", InstantiateMsg(17, []));
    messageCount := |res.messages|;
    count := c.Query(GetCount).count;
  }

  /** Any caller may increment: 17 becomes 18. */
  method IncrementByAnyone() returns (r: Result<Response>, count: Int32)
    ensures r.Ok? && count == 18
  {
    var c, _ := Contract.Instantiate("creator", InstantiateMsg(17, []));
    r := c.Execute("anyone", Increment, 0);
    count := c.Query(GetCount).count;
  }

  /** A stranger's reset is refused; the creator's reset sets the count to 5. */
  method ResetByOwnerOnly() returns (refused: Result<Response>, accepted: Result<Response>, count: Int32)
    ensures refused == Err(Unauthorized)
    ensures accepted.Ok? && count == 5
  {
    var c, _ := Contract.Instantiate("creator", InstantiateMsg(17, []));
    refused := c.Execute("anyone", Reset(5), 0);
    accepted := c.Execute("creator", Reset(5), 0);
    count := c.Query(GetCount).count;
  }

  /** Adding two addresses to an empty whitelist gives exactly those two, in order. */
  method AddWhitelist() returns (r: Result<Response>, listed: seq<string>)
    ensures r.Ok? && listed == ["address1", "address2"]
  {
    var c, _ := Contract.Instantiate("creator", InstantiateMsg(17, []));
    r := c.TryAddWhitelist("creator", ["address1", "address2"]);
    listed := c.Query(GetWhitelist).whitelist;
  }

  /** Adding an address already listed keeps both occurrences. */
  method AddKeepsDuplicates() returns (listed: seq<string>)
    ensures listed == ["a", "b", "a"]
  {
    var c, _ := Contract.Instantiate("creator", InstantiateMsg(0, []));
    var _ := c.TryAddWhitelist("creator", ["a", "b"]);
    var _ := c.TryAddWhitelist("creator", ["a"]);
    listed := c.Query(GetWhitelist).whitelist;
  }

  /** Removing "address1" from ["address1", "address2"] leaves ["address2"]. */
  method RemoveWhitelist() returns (r: Result<Response>, listed: seq<string>)
    ensures r.Ok? && listed == ["address2"]
  {
    var c, _ := Contract.Instantiate("creator", InstantiateMsg(17, ["address1", "address2"]));
    r := c.TryRemoveWhitelist("creator", ["address1"]);
    listed := c.Query(GetWhitelist).whitelist;
  }

  /** Removing an address that is not listed leaves the whitelist as it was. */
  method RemoveAbsent() returns (r: Result<Response>, listed: seq<string>)
    ensures r.Ok? && listed == ["a", "b"]
  {
    var c, _ := Contract.Instantiate("creator", InstantiateMsg(0, ["a", "b"]));
    r := c.TryRemoveWhitelist("creator", ["z"]);
    listed := c.Query(GetWhitelist).whitelist;
  }

  /**
   * With two listed addresses, 100 each and a balance of 1000 "token", the
   * distribution succeeds: two transfers of 100 in whitelist order, none of
   * them in the response. With a balance of 150 it fails.
   */
  method TokenDistribute() returns (r: Result<Response>, plan: seq<BankMsg>, short: Result<Response>)
    ensures r.Ok? && r.value.messages == []
    ensures plan == [Send("address1", [Coin("token", 100)]), Send("address2", [Coin("token", 100)])]
    ensures short == Err(InsufficientError)
  {
    var c, _ := Contract.Instantiate("creator", InstantiateMsg(17, []));
    var _ := c.TryAddWhitelist("creator", ["address1", "address2"]);
    r, plan := c.TryTokenDistribute("creator", 100, "token", 1000);
    var unused;
    short, unused := c.TryTokenDistribute("creator", 100, "token", 150);
  }

  /** Any caller incrementing `n` times takes the count from c to c + n, as long as that fits an `i32`. */
  method IncrementTimes(c: Contract, caller: Addr, n: nat) returns (allOk: bool)
    requires c.count + n <= I32_MAX
    modifies c
    ensures allOk
    ensures c.count == old(c.count) + n
    ensures c.owner == old(c.owner) && c.whitelist == old(c.whitelist)
  {
    allOk := true;
    for i := 0 to n
      invariant allOk
      invariant c.count == old(c.count) + i
      invariant c.owner == old(c.owner) && c.whitelist == old(c.whitelist)
    {
      var r := c.Execute(caller, Increment, 0);
      allOk := allOk && r.Ok?;
    }
  }

  /**
   * Instantiate with 17, increment by anyone (18), reset to 5 by the owner (5),
   * then a stranger's reset to 9 fails and the count stays 5.
   */
  method EndToEnd() returns (counts: seq<Int32>, last: Result<Response>)
    ensures counts == [18, 5, 5]
    ensures last == Err(Unauthorized)
  {
    var c, _ := Contract.Instantiate("O", InstantiateMsg(17, []));
    var _ := c.Execute("someone", Increment, 0);
    counts := [c.Query(GetCount).count];
    var _ := c.Execute("O", Reset(5), 0);
    counts := counts + [c.Query(GetCount).count];
    last := c.Execute("someone", Reset(9), 0);
    counts := counts + [c.Query(GetCount).count];
  }
}
