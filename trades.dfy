/** Trades: immutable records of a buy or sell of some units of an instrument at a price in cents. */
module Trades {
  import opened Outcomes

  datatype Direction = Buy | Sell

  /** `quantity` units of `symbol` bought or sold at `priceInCents` each. */
  datatype Trade = Trade(direction: Direction, quantity: int, symbol: string, priceInCents: int)

  /** The synthetic instrument that holds a portfolio's cash. */
  const CashSymbol: string := "CASH"
  /** Every new portfolio is funded by buying this many units of cash ... */
  const FundingUnits: int := 100000
  /** ... at this price each, i.e. 1000.00 in currency units. */
  const FundingPriceInCents: int := 1

  predicate IsValidTrade(t: Trade) {
    t.quantity > 0 && t.priceInCents >= 0
  }

  /** The builder `Trade.buy(q).sharesOf(s).at(p).centsEach()` and its selling twin, with validation. */
  function NewTrade(direction: Direction, quantity: int, symbol: string, priceInCents: int): (r: Result<Trade>)
    ensures r.Ok? <==> quantity > 0 && priceInCents >= 0
    ensures r.Ok? ==> IsValidTrade(r.value) && r.value == Trade(direction, quantity, symbol, priceInCents)
    ensures r.Err? ==> r.error == InvalidTrade
  {
    if quantity > 0 && priceInCents >= 0 then Ok(Trade(direction, quantity, symbol, priceInCents))
    else Err(InvalidTrade)
  }

  /** The trade that seeds every new portfolio: buy 100000 CASH at 1 cent each. */
  function FundingTrade(): (t: Trade)
    ensures NewTrade(Buy, FundingUnits, CashSymbol, FundingPriceInCents) == Ok(t)
  {
    Trade(Buy, FundingUnits, CashSymbol, FundingPriceInCents)
  }

  /** Buys add to a holding, sells subtract from it. */
  function SignedQuantity(t: Trade): int {
    if t.direction == Buy then t.quantity else -t.quantity
  }

  /** The net holding of `symbol` over a trade log: the reference definition of a position's quantity. */
  function NetQuantity(trades: seq<Trade>, symbol: string): int {
    if trades == [] then 0
    else
      var last := trades[|trades| - 1];
      NetQuantity(trades[..|trades| - 1], symbol) + (if last.symbol == symbol then SignedQuantity(last) else 0)
  }

  predicate Mentions(trades: seq<Trade>, symbol: string) {
    exists i :: 0 <= i < |trades| && trades[i].symbol == symbol
  }

  /** A symbol that no trade mentions has no holding. */
  lemma {:induction false} NetQuantityOfUnmentioned(trades: seq<Trade>, symbol: string)
    requires !Mentions(trades, symbol)
    ensures NetQuantity(trades, symbol) == 0
  {
    if trades != [] {
      var pre := trades[..|trades| - 1];
      assert !Mentions(pre, symbol) by {
        forall i | 0 <= i < |pre| ensures pre[i].symbol != symbol {
          assert pre[i] == trades[i];
        }
      }
      NetQuantityOfUnmentioned(pre, symbol);
    }
  }

  /** The net holding of a concatenated log is the sum of the parts' net holdings. */
  lemma {:induction false} NetQuantityAppend(a: seq<Trade>, b: seq<Trade>, symbol: string)
    ensures NetQuantity(a + b, symbol) == NetQuantity(a, symbol) + NetQuantity(b, symbol)
  {
    if b != [] {
      var b' := b[..|b| - 1];
      assert (a + b)[..|a + b| - 1] == a + b';
      NetQuantityAppend(a, b', symbol);
    } else {
      assert a + b == a;
    }
  }
}
