/**
 * Portfolios: one per client, stored under the client's id, holding a trade log from which cash and
 * positions are derived. The directory stores them; the controller seeds and looks them up.
 */
module Portfolios {
  import opened Outcomes
  import opened Trades
  import opened Positions

  /** A portfolio: its id (equal to its owner's client id) and its trade log, oldest first. */
  datatype Portfolio = Portfolio(id: int, trades: seq<Trade>)

  /**
   * A freshly created portfolio under `id`: its log holds the funding trade only, so it has the funding
   * amount in cash and exactly one position, the funding units of CASH.
   */
  function Funded(id: int): (p: Portfolio)
    ensures p.id == id && p.trades == [FundingTrade()]
    ensures CashInCents(p.trades) == FundingUnits * FundingPriceInCents
    ensures PositionsOf(p.trades) == [Position(CashSymbol, FundingUnits)]
  {
    PositionsOfSingleTrade(FundingTrade());
    Portfolio(id, [FundingTrade()])
  }

  /**
   * How one trade moves cash, in cents: a trade in the cash instrument deposits (buy) or withdraws
   * (sell) quantity times price; a trade in any other instrument settles against cash the other way.
   */
  function CashDelta(t: Trade): int {
    if t.symbol == CashSymbol then SignedQuantity(t) * t.priceInCents
    else -(SignedQuantity(t) * t.priceInCents)
  }

  /**
   * The cash balance in cents, accumulated over the log without rounding. While every trade moves cash
   * at 1 cent a unit, the balance in cents is the net CASH holding.
   */
  function CashInCents(trades: seq<Trade>): (r: int)
    ensures (forall i :: 0 <= i < |trades| ==> trades[i].symbol == CashSymbol && trades[i].priceInCents == 1)
            ==> r == NetQuantity(trades, CashSymbol)
  {
    if trades == [] then 0
    else CashInCents(trades[..|trades| - 1]) + CashDelta(trades[|trades| - 1])
  }

  /** `getCash()`: the balance reported in currency units (100 cents each), converted only here. */
  function Cash(p: Portfolio): (r: real)
    ensures r * 100.0 == CashInCents(p.trades) as real
  {
    CashInCents(p.trades) as real / 100.0
  }

  /** The balance of a concatenated log is the sum of the parts' balances. */
  lemma {:induction false} CashInCentsAppend(a: seq<Trade>, b: seq<Trade>)
    ensures CashInCents(a + b) == CashInCents(a) + CashInCents(b)
  {
    if b != [] {
      var b' := b[..|b| - 1];
      assert (a + b)[..|a + b| - 1] == a + b';
      CashInCentsAppend(a, b');
    } else {
      assert a + b == a;
    }
  }

  /** A new portfolio holds 1000.00 in cash (100000 cents) and exactly one position: 100000 units of CASH. */
  lemma FundedPortfolioHoldings(id: int)
    ensures CashInCents(Funded(id).trades) == 100000
    ensures Cash(Funded(id)) == 1000.0
    ensures PositionsOf(Funded(id).trades) == [FromTrade(FundingTrade())] == [Position(CashSymbol, 100000)]
  {
  }

  /** The in-memory store of portfolios, keyed by portfolio id. */
  class PortfolioDirectory {
    var portfolios: map<int, Portfolio>

    /** Every portfolio is stored under its own id. */
    ghost predicate Valid()
      reads this
    {
      forall id :: id in portfolios ==> portfolios[id].id == id
    }

    constructor ()
      ensures Valid() && portfolios == map[]
    {
      portfolios := map[];
    }

    /** Stores a portfolio under its id, refusing to replace one that is already there. */
    method AddPortfolio(p: Portfolio) returns (r: Result<Portfolio>)
      requires Valid()
      modifies this
      ensures Valid()
      ensures r.Ok? <==> p.id !in old(portfolios)
      ensures r.Ok? ==> r.value == p && portfolios == old(portfolios)[p.id := p]
      ensures r.Err? ==> r.error == DuplicatePortfolio(p.id) && portfolios == old(portfolios)
    {
      if p.id in portfolios {
        return Err(DuplicatePortfolio(p.id));
      }
      portfolios := portfolios[p.id := p];
      return Ok(p);
    }

    method FindById(id: int) returns (found: Option<Portfolio>)
      requires Valid()
      ensures found.Some? <==> id in portfolios
      ensures found.Some? ==> found.value == portfolios[id] && found.value.id == id
    {
      if id in portfolios {
        return Some(portfolios[id]);
      }
      return None;
    }
  }

  /** Creates funded portfolios for new clients and answers portfolio queries. */
  class PortfolioController {
    const directory: PortfolioDirectory

    constructor (directory: PortfolioDirectory)
      ensures this.directory == directory
    {
      this.directory := directory;
    }

    /** Seeds a portfolio for a newly registered client under the client's id. */
    method CreatePortfolioForClient(clientId: int) returns (r: Result<Portfolio>)
      requires directory.Valid()
      modifies directory
      ensures directory.Valid()
      ensures r.Ok? <==> clientId !in old(directory.portfolios)
      ensures r.Ok? ==> r.value == Funded(clientId)
      ensures r.Ok? ==> directory.portfolios == old(directory.portfolios)[clientId := Funded(clientId)]
      ensures r.Err? ==> r.error == DuplicatePortfolio(clientId) && directory.portfolios == old(directory.portfolios)
    {
      r := directory.AddPortfolio(Funded(clientId));
    }

    /** `viewPortfolio`: the portfolio with this id, or PortfolioNotFound. */
    method ViewPortfolio(portfolioId: int) returns (r: Result<Portfolio>)
      requires directory.Valid()
      ensures r.Ok? <==> portfolioId in directory.portfolios
      ensures r.Ok? ==> r.value == directory.portfolios[portfolioId] && r.value.id == portfolioId
      ensures r.Err? ==> r.error == PortfolioNotFound(portfolioId)
    {
      var found := directory.FindById(portfolioId);
      if found.None? {
        return Err(PortfolioNotFound(portfolioId));
      }
      return Ok(found.value);
    }

    /** `viewPortfolioForClient`: the portfolio of the client with this id, or PortfolioNotFound. */
    method ViewPortfolioForClient(clientId: int) returns (r: Result<Portfolio>)
      requires directory.Valid()
      ensures r.Ok? <==> clientId in directory.portfolios
      ensures r.Ok? ==> r.value == directory.portfolios[clientId] && r.value.id == clientId
      ensures r.Err? ==> r.error == PortfolioNotFound(clientId)
    {
      var found := directory.FindById(clientId);
      match found
      case None => r := Err(PortfolioNotFound(clientId));
      case Some(p) => r := Ok(p);
    }

    /** `viewPortfolioPositionsForClient`: the positions derived from the client's trade log. */
    method ViewPortfolioPositionsForClient(clientId: int) returns (r: Result<seq<Position>>)
      requires directory.Valid()
      ensures r.Ok? <==> clientId in directory.portfolios
      ensures r.Ok? ==> r.value == PositionsOf(directory.portfolios[clientId].trades)
      ensures r.Ok? ==> UniqueSymbols(r.value)
      ensures r.Ok? ==> forall p :: p in r.value <==>
                (p.quantity != 0 && p.quantity == NetQuantity(directory.portfolios[clientId].trades, p.symbol))
      ensures r.Err? ==> r.error == PortfolioNotFound(clientId)
    {
      var portfolio := ViewPortfolioForClient(clientId);
      match portfolio
      case Err(e) => r := Err(e);
      case Ok(p) =>
        PositionsOfNetQuantities(p.trades);
        r := Ok(PositionsOf(p.trades));
    }
  }
}
