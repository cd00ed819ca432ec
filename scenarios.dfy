/**
 * The registration scenarios of the test suite, each on a freshly built ledger and stated for every
 * name and email rather than the one fixed client: what a caller can prove from the controllers'
 * contracts alone. Candidates are built as the test builds them, without an id.
 */
module Scenarios {
  import opened Outcomes
  import opened Trades
  import opened Positions
  import opened Portfolios
  import opened Clients

  /** A fresh ledger: empty client directory, empty portfolio directory, and the controllers over them. */
  method NewLedger() returns (controller: ClientController)
    ensures fresh(controller) && fresh(controller.clientDirectory)
    ensures fresh(controller.portfolioController) && fresh(controller.portfolioController.directory)
    ensures controller.Valid()
    ensures controller.clientDirectory.clients == [] && controller.portfolioController.directory.portfolios == map[]
  {
    var clientDirectory := new ClientDirectory();
    var portfolioDirectory := new PortfolioDirectory();
    var portfolioController := new PortfolioController(portfolioDirectory);
    controller := new ClientController(clientDirectory, portfolioController);
  }

  /** A candidate missing a mandatory field is refused, and no client is stored. */
  method MissingMandatoryFieldIsRefused(firstName: string, lastName: string, email: string)
    returns (r: Result<Client>, all: seq<Client>)
    requires firstName == "" || lastName == "" || email == ""
    ensures r == Err(MissingMandatoryFields)
    ensures all == []
  {
    var controller := NewLedger();
    r := controller.Register(Candidate(firstName, lastName, email));
    all := controller.FindAll();
  }

  /** The first client registered is stored in the client directory under id 1. */
  method FirstClientIsStoredUnderIdOne(firstName: string, lastName: string, email: string)
    returns (registered: Result<Client>, found: Option<Client>)
    requires firstName != "" && lastName != "" && email != ""
    ensures registered == Ok(Client(1, firstName, lastName, email))
    ensures found == Some(registered.value)
  {
    var controller := NewLedger();
    registered := controller.Register(Candidate(firstName, lastName, email));
    found := controller.clientDirectory.FindClientById(1);
  }

  /** Reading a client back through the controller by its new id gives the client `register` returned. */
  method RegisteredClientReadsBack(firstName: string, lastName: string, email: string)
    returns (registered: Result<Client>, found: Option<Client>)
    requires firstName != "" && lastName != "" && email != ""
    ensures registered.Ok? && found == Some(registered.value)
    ensures found.value == Client(1, firstName, lastName, email)
  {
    var controller := NewLedger();
    registered := controller.Register(Candidate(firstName, lastName, email));
    found := controller.FindClientById(registered.value.id);
  }

  /** A newly registered client's portfolio holds exactly 1000.00 in cash, i.e. 100000 cents. */
  method RegisteredClientHasFundedCash(firstName: string, lastName: string, email: string)
    returns (portfolio: Result<Portfolio>)
    requires firstName != "" && lastName != "" && email != ""
    ensures portfolio.Ok?
    ensures Cash(portfolio.value) == 1000.0 && CashInCents(portfolio.value.trades) == 100000
  {
    var controller := NewLedger();
    var registered := controller.Register(Candidate(firstName, lastName, email));
    portfolio := controller.portfolioController.ViewPortfolioForClient(registered.value.id);
    FundedPortfolioHoldings(registered.value.id);
  }

  /** A newly registered client holds exactly one position: that of buying 100000 CASH at 1 cent each. */
  method RegisteredClientHasOnePosition(firstName: string, lastName: string, email: string)
    returns (positions: Result<seq<Position>>)
    requires firstName != "" && lastName != "" && email != ""
    ensures positions.Ok? && |positions.value| == 1
    ensures NewTrade(Buy, 100000, "CASH", 1).Ok?
    ensures positions.value == [FromTrade(NewTrade(Buy, 100000, "CASH", 1).value)]
  {
    var controller := NewLedger();
    var registered := controller.Register(Candidate(firstName, lastName, email));
    positions := controller.portfolioController.ViewPortfolioPositionsForClient(registered.value.id);
    FundedPortfolioHoldings(registered.value.id);
  }

  /** After one registration, an id that was never issued (such as -1) has no portfolio, by either lookup. */
  method UnissuedPortfolioIsNotFound(firstName: string, lastName: string, email: string, unissued: int)
    returns (byClient: Result<Portfolio>, byId: Result<Portfolio>)
    requires firstName != "" && lastName != "" && email != ""
    requires unissued != 1
    ensures byClient == Err(PortfolioNotFound(unissued))
    ensures byId == Err(PortfolioNotFound(unissued))
  {
    var controller := NewLedger();
    var registered := controller.Register(Candidate(firstName, lastName, email));
    byClient := controller.portfolioController.ViewPortfolioForClient(unissued);
    byId := controller.portfolioController.ViewPortfolio(unissued);
  }

  /** Registering N valid candidates in turn lists exactly N clients, with ids 1 to N in registration order. */
  method RegisteredClientsAreListed(candidates: seq<Client>) returns (all: seq<Client>)
    requires forall i :: 0 <= i < |candidates| ==> HasMandatoryFields(candidates[i])
    ensures |all| == |candidates|
    ensures forall i :: 0 <= i < |all| ==> all[i] == candidates[i].(id := i + 1)
  {
    var controller := NewLedger();
    var k := 0;
    while k < |candidates|
      invariant 0 <= k <= |candidates|
      invariant fresh(controller.clientDirectory) && fresh(controller.portfolioController.directory)
      invariant controller.Valid()
      invariant |controller.clientDirectory.clients| == k
      invariant forall i :: 0 <= i < k ==> controller.clientDirectory.clients[i] == candidates[i].(id := i + 1)
    {
      var r := controller.Register(candidates[k]);
      k := k + 1;
    }
    all := controller.FindAll();
  }

  /** After one registration, looking up any other client id (such as 100) finds nothing, without an error. */
  method UnassignedClientIsAbsent(firstName: string, lastName: string, email: string, unassigned: int)
    returns (found: Option<Client>)
    requires firstName != "" && lastName != "" && email != ""
    requires unassigned != 1
    ensures found == None
  {
    var controller := NewLedger();
    var registered := controller.Register(Candidate(firstName, lastName, email));
    found := controller.FindClientById(unassigned);
  }
}
