/**
 * Money amounts. The backend keeps prices as `Decimal` and the frontend as
 * JavaScript numbers; both are modelled as exact `real`s.
 */
module Money {
  /**
   * `price * qty`: an amount per piece times a piece count, written as
   * repeated addition; `TimesIsProduct` shows it is the product.
   */
  function Times(price: real, qty: int): real
    decreases if qty < 0 then -qty else qty
  {
    if qty == 0 then 0.0
    else if qty > 0 then Times(price, qty - 1) + price
    else Times(price, qty + 1) - price
  }

  lemma {:induction false} TimesIsProduct(price: real, qty: int)
    ensures Times(price, qty) == price * qty as real
    decreases if qty < 0 then -qty else qty
  {
    if qty > 0 {
      TimesIsProduct(price, qty - 1);
    } else if qty < 0 {
      TimesIsProduct(price, qty + 1);
    }
  }
}
