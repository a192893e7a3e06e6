/** Shares to burn for an amount of USDC (lib/vault.ts). */
module Vault {

  function SharesForAmount(amount: nat, supply: nat, assets: nat): nat {
    if supply == 0 || assets == 0 then amount else (amount * supply + assets - 1) / assets + 1
  }

  /** What the vault pays for shares: their part of the assets, rounded down. */
  function PaidFor(shares: nat, supply: nat, assets: nat): nat
    requires supply > 0
  {
    shares * assets / supply
  }

  /** In a vault with no shares or no assets a share is a stroop. */
  lemma EmptyVault(amount: nat, supply: nat, assets: nat)
    requires supply == 0 || assets == 0
    ensures SharesForAmount(amount, supply, assets) == amount
  {
  }

  /** The fewest shares that pay the amount, and one or two more. */
  lemma FewerWouldNotDo(amount: nat, supply: nat, assets: nat)
    requires supply > 0 && assets > 0 && amount > 0
    ensures SharesForAmount(amount, supply, assets) >= 2
    ensures PaidFor(SharesForAmount(amount, supply, assets) - 2, supply, assets) < amount
  {
    var n := amount * supply + assets - 1;
    var least := n / assets;
    MulLe(1, amount, supply);
    DivBounds(n, assets);
    DivMono(assets, n, assets);
    DivUnique(assets, assets, 1);
    assert (least - 1) * assets == least * assets - assets;
    DivBounds((least - 1) * assets, supply);
    if PaidFor(least - 1, supply, assets) >= amount { MulLe(amount, PaidFor(least - 1, supply, assets), supply); }
  }

  lemma DivBounds(a: nat, b: nat)
    requires b > 0
    ensures (a / b) * b <= a < (a / b) * b + b
  {
  }

  lemma MulLe(a: nat, b: nat, c: nat)
    ensures a <= b ==> a * c <= b * c
  {
  }

  /** A quotient is the one integer between its bounds. */
  lemma DivUnique(a: nat, b: nat, q: nat)
    requires b > 0 && q * b <= a < q * b + b
    ensures a / b == q
  {
    DivBounds(a, b);
    MulLe(a / b + 1, q, b);
    MulLe(q + 1, a / b, b);
  }

  lemma DivMono(a: nat, b: nat, c: nat)
    requires a <= b && c > 0
    ensures a / c <= b / c
  {
    DivBounds(a, c);
    DivBounds(b, c);
    MulLe(b / c + 1, a / c, c);
  }

  lemma DivShift(a: nat, b: nat, c: nat)
    requires c > 0
    ensures (a * c + b) / c == a + b / c
  {
    DivBounds(b, c);
    DivUnique(a * c + b, c, a + b / c);
  }

  /** Burning those shares pays at least the amount, and overpays by less than two shares' worth. */
  lemma PaysEnough(amount: nat, supply: nat, assets: nat)
    requires supply > 0 && assets > 0
    ensures amount <= PaidFor(SharesForAmount(amount, supply, assets), supply,
        assets) <= amount + (2 * assets - 1) / supply
  {
    var n := amount * supply + assets - 1;
    var shares := n / assets + 1;
    DivBounds(n, assets);
    assert shares * assets == (n / assets) * assets + assets;
    DivMono(amount * supply, shares * assets, supply);
    DivShift(amount, 0, supply);
    DivMono(shares * assets, amount * supply + (2 * assets - 1), supply);
    DivShift(amount, 2 * assets - 1, supply);
  }

  /** Asking for what `held` shares are worth never asks for more than one share beyond them. */
  lemma AtMostOneBeyond(held: nat, supply: nat, assets: nat)
    requires supply > 0 && assets > 0
    ensures SharesForAmount(PaidFor(held, supply, assets), supply, assets) <= held + 1
  {
    var a := PaidFor(held, supply, assets);
    DivBounds(held * assets, supply);
    DivMono(a * supply + assets - 1, held * assets + (assets - 1), assets);
    DivShift(held, assets - 1, assets);
    DivUnique(assets - 1, assets, 0);
  }

  /**
   Withdrawing everything by amount asks for one share too many exactly when rounding the position down loses
   less than a share is worth; in particular whenever a share is worth a stroop or more.
   */
  lemma WholePositionAsksOneTooMany(held: nat, supply: nat, assets: nat)
    requires supply > 0 && assets > 0
    ensures SharesForAmount(PaidFor(held, supply, assets), supply, assets) == held + 1 <==>
        (held * assets) % supply < assets
    ensures assets >= supply ==> (held * assets) % supply < assets
  {
    var whole := held * assets;
    var lost := whole % supply;
    var a := PaidFor(held, supply, assets);
    DivBounds(whole, supply);
    assert a * supply + lost == whole;
    DivBounds(a * supply + assets - 1, assets);
    if lost < assets { DivUnique(a * supply + assets - 1, assets, held); }
  }
}
