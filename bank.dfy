/**
 * Payout plans: the bank transfer instructions the distribution handler
 * derives from the whitelist, and how much of a denomination they move.
 */
module Bank {
  import opened Types

  /**
   * `plan` holds one transfer per entry of `recipients`, in the same order,
   * each moving exactly `amount` of `denom` to that entry: a recipient listed
   * twice is paid twice.
   */
  ghost predicate PaysEach(plan: seq<BankMsg>, recipients: seq<string>, amount: Uint128, denom: string)
  {
    && |plan| == |recipients|
    && forall i :: 0 <= i < |plan| ==> plan[i] == Send(recipients[i], [Coin(denom, amount)])
  }

  /** The total of `denom` carried by `coins`. */
  function CoinTotal(coins: seq<Coin>, denom: string): nat
  {
    if coins == [] then 0
    else (if coins[0].denom == denom then coins[0].amount else 0) + CoinTotal(coins[1..], denom)
  }

  /** The total of `denom` that executing every transfer of `plan` would move. */
  function Disbursed(plan: seq<BankMsg>, denom: string): nat
  {
    if plan == [] then 0
    else CoinTotal(plan[0].amount, denom) + Disbursed(plan[1..], denom)
  }

  /** A plan that pays each recipient `amount` moves `amount` times the number of recipients. */
  lemma {:induction false} PaysEachDisbursed(plan: seq<BankMsg>, recipients: seq<string>, amount: Uint128, denom: string)
    requires PaysEach(plan, recipients, amount, denom)
    ensures Disbursed(plan, denom) == amount * |recipients|
  {
    if plan != [] {
      assert PaysEach(plan[1..], recipients[1..], amount, denom) by {
        forall i | 0 <= i < |plan[1..]|
          ensures plan[1..][i] == Send(recipients[1..][i], [Coin(denom, amount)])
        {
          assert plan[1..][i] == plan[i + 1];
        }
      }
      PaysEachDisbursed(plan[1..], recipients[1..], amount, denom);
      assert CoinTotal(plan[0].amount, denom) == amount;
      assert amount * |recipients| == amount + amount * |recipients[1..]|;
    }
  }
}
