/** The exchange's taker fee in whole cents: the coefficient is 7/100 of
    P(1-P) per contract, rounded up once over the whole order. */
module Fees {

  function CeilDiv(a: int, b: int): (q: int)
    requires b > 0
    ensures b * (q - 1) < a <= b * q
  {
    -((-a) / b)
  }

  /** Fee for `quantity` contracts at `price` cents. */
  function EntryFee(price: int, quantity: int): (fee: int)
    ensures quantity > 0 ==> 10000 * (fee - 1) < 7 * price * (100 - price) * quantity <= 10000 * fee
    ensures quantity > 0 && 0 <= price <= 100 ==> 0 <= fee
  {
    if quantity <= 0 then 0
    else
      assert 0 <= price <= 100 ==> 7 * price * (100 - price) * quantity >= 0 by {
        if 0 <= price <= 100 {
          ProductNonNegative(price, 100 - price);
          ProductNonNegative(7 * (price * (100 - price)), quantity);
          assert 7 * (price * (100 - price)) * quantity == 7 * price * (100 - price) * quantity;
        }
      }
      CeilDiv(7 * price * (100 - price) * quantity, 10000)
  }

  lemma ProductNonNegative(x: int, y: int)
    requires x >= 0 && y >= 0
    ensures x * y >= 0
  {}

  /** A price and its complement carry the same fee. */
  lemma FeeSymmetric(price: int, quantity: int)
    ensures EntryFee(price, quantity) == EntryFee(100 - price, quantity)
  {}

  /** The smallest whole number at or above a quotient. */
  lemma CeilDivBound(a: int, b: int, bound: int)
    requires b > 0
    ensures CeilDiv(a, b) <= bound <==> a <= b * bound
  {}

  /** Selling `quantity` contracts at `price` raises at least its own fee
      exactly when the price is not negative, or so negative that the formula's
      sign overtakes it. */
  lemma {:induction false} FeeWithinProceeds(price: int, quantity: int)
    requires quantity > 0
    ensures EntryFee(price, quantity) <= price * quantity <==> price >= 0 || price <= -1329
  {
    var numerator := 7 * price * (100 - price) * quantity;
    CeilDivBound(numerator, 10000, price * quantity);
    var excess := 7 * (100 - price) - 10000;
    var scaled := price * excess;
    assert numerator - 10000 * (price * quantity) == scaled * quantity;
    if price >= 0 || price <= -1329 {
      assert scaled <= 0 by { ProductSign(price, excess); }
      assert scaled * quantity <= 0;
    } else {
      assert scaled > 0 by { ProductSign(price, excess); }
      assert scaled * quantity > 0;
    }
  }

  lemma ProductSign(x: int, y: int)
    ensures x >= 0 && y <= 0 ==> x * y <= 0
    ensures x < 0 && y >= 0 ==> x * y <= 0
    ensures x < 0 && y < 0 ==> x * y > 0
  {}

  /** Rounding once per order: splitting an order never lowers its total fee,
      and costs at most one cent more per split. */
  lemma {:induction false} SplittingNeverCheaper(price: int, first: int, second: int)
    requires first > 0 && second > 0
    ensures EntryFee(price, first + second) <= EntryFee(price, first) + EntryFee(price, second)
         <= EntryFee(price, first + second) + 1
  {}
}
