# BDDTrader client and portfolio ledger in Dafny

This project models the in-memory ledger of BDDTrader: how clients register, how every new client gets a funded portfolio, and how portfolios are looked up.

- **Registration.** A candidate must have a non-empty first name, last name and email. Otherwise it is refused with `MissingMandatoryFields`.
- **Client directory.** It gives each registered client the next id, starting at 1, and never reuses one. Clients can be looked up by id and listed in registration order.
- **Portfolio directory.** Every new client gets a portfolio under the client's own id. The portfolio is funded with one trade: buy 100000 units of `CASH` at 1 cent each.
- **Derived values.** A portfolio's cash (in integer cents) and its positions are computed from its trade log.
- **Portfolio lookups.** Looking up a portfolio by an id that was never issued fails with `PortfolioNotFound`. Looking up a client by such an id gives an absent result.

The behaviour of the classes `Client`, `ClientDirectory`, `ClientController`, `Portfolio`, `PortfolioDirectory`, `PortfolioController`, `Trade`, `Position` and the two exceptions is the behaviour that the test `src/test/java/net/bddtrader/unittests/clients/WhenAClientRegistersWithBDDTrader.java` asserts, and every row below cites its lines.

Files and modules:

- `outcomes.dfy` (`Outcomes`): `Option` for client lookups, `Result` with the `LedgerError` taxonomy for everything that raises.
- `trades.dfy` (`Trades`): the `Trade` record, its validated builder, the funding trade and `NetQuantity`, the reference definition of a net holding.
- `positions.dfy` (`Positions`): `Position`, `FromTrade` (`Position.fromTrade`) and `PositionsOf`. `PositionsOf` is a fold over the trade log. It adds buys, subtracts sells, keeps symbols in first-appearance order and drops zero holdings. It is proved equal to the reference `NetBySymbol` with zero holdings removed.
- `portfolios.dfy` (`Portfolios`): `Portfolio`, cash in cents and its currency view `Cash`, and the classes `PortfolioDirectory` (a `map` from id to portfolio) and `PortfolioController`.
- `clients.dfy` (`Clients`): `Client`, and the classes `ClientDirectory` (a `seq` of clients plus the `nextId` counter) and `ClientController`. The controller's invariant `RegisteredAndFunded` says two things. The portfolio ids are exactly the client ids 1..N. Each of those portfolios is the funded one.
- `scenarios.dfy` (`Scenarios`): one method per test case on a freshly built ledger. Each is stated for every name and email, not only the test's fixed client.

Cash: a trade in `CASH` moves cash by its signed quantity times its price. A trade in any other instrument settles against cash with the opposite sign. Cash is held in integer cents, and `Cash` converts it to currency units (as an exact `real`) only when it is reported.

## Model

| member | source | states |
|---|---|---|
| `Trades.NewTrade` | src/test/java/net/bddtrader/unittests/clients/WhenAClientRegistersWithBDDTrader.java:110 | the trade builder succeeds exactly when quantity > 0 and price >= 0, and then yields a trade with the given direction, quantity, symbol and price; otherwise it fails with InvalidTrade |
| `Trades.FundingTrade` | src/test/java/net/bddtrader/unittests/clients/WhenAClientRegistersWithBDDTrader.java:110 | the funding trade is exactly what the validated builder yields for buying 100000 CASH at 1 cent each |
| `Trades.NetQuantityOfUnmentioned` | src/test/java/net/bddtrader/unittests/clients/WhenAClientRegistersWithBDDTrader.java:106-110 | a symbol that no trade in the log mentions has net holding 0 |
| `Trades.NetQuantityAppend` | src/test/java/net/bddtrader/unittests/clients/WhenAClientRegistersWithBDDTrader.java:106-110 | the net holding of a concatenated log is the sum of the parts' net holdings |
| `Positions.FromTrade` | src/test/java/net/bddtrader/unittests/clients/WhenAClientRegistersWithBDDTrader.java:110 | `Position.fromTrade` keeps the trade's symbol and holds the trade's net quantity (buys positive, sells negative), which is nonzero for a valid trade |
| `Positions.FirstAppearanceSpec` | src/test/java/net/bddtrader/unittests/clients/WhenAClientRegistersWithBDDTrader.java:106-110 | the first-appearance symbol list has no repeats and holds exactly the symbols that some trade mentions |
| `Positions.AccumulateExisting` | src/test/java/net/bddtrader/unittests/clients/WhenAClientRegistersWithBDDTrader.java:106-110 | a fold step for a symbol that already has a running position changes only that position, by the trade's signed quantity |
| `Positions.AccumulateNew` | src/test/java/net/bddtrader/unittests/clients/WhenAClientRegistersWithBDDTrader.java:106-110 | a fold step for a new symbol appends `Position.fromTrade` of the trade and leaves the rest unchanged |
| `Positions.NetBySymbolStep` | src/test/java/net/bddtrader/unittests/clients/WhenAClientRegistersWithBDDTrader.java:106-110 | the reference positions of a log extended by one trade are one fold step from those of the shorter log |
| `Positions.TallyIsNetBySymbol` | src/test/java/net/bddtrader/unittests/clients/WhenAClientRegistersWithBDDTrader.java:106-110 | the fold over the whole log equals the reference: each first-appearing symbol paired with its net holding |
| `Positions.NonZeroSpec` | src/test/java/net/bddtrader/unittests/clients/WhenAClientRegistersWithBDDTrader.java:106-110 | dropping zero holdings keeps exactly the nonzero positions and keeps symbols unique |
| `Positions.PositionsOf` | src/test/java/net/bddtrader/unittests/clients/WhenAClientRegistersWithBDDTrader.java:106-110 | the derived positions are the reference positions (each symbol with its net holding) in first-appearance order, with zero holdings removed |
| `Positions.PositionsOfNetQuantities` | src/test/java/net/bddtrader/unittests/clients/WhenAClientRegistersWithBDDTrader.java:106-110 | a position is reported if and only if its quantity is its symbol's nonzero net holding, and no symbol is reported twice |
| `Positions.PositionsOfSingleTrade` | src/test/java/net/bddtrader/unittests/clients/WhenAClientRegistersWithBDDTrader.java:109-110 | a log of one valid trade yields exactly one position, `Position.fromTrade` of that trade |
| `Portfolios.CashInCentsAppend` | src/test/java/net/bddtrader/unittests/clients/WhenAClientRegistersWithBDDTrader.java:93-96 | the cash balance of a concatenated log is the sum of the parts' balances, in integer cents |
| `Portfolios.CashInCents` | src/test/java/net/bddtrader/unittests/clients/WhenAClientRegistersWithBDDTrader.java:93-96 | the cash balance in integer cents; while every trade is in CASH at 1 cent, it equals the net CASH holding |
| `Portfolios.Cash` | src/test/java/net/bddtrader/unittests/clients/WhenAClientRegistersWithBDDTrader.java:96 | `getCash()` reports the balance in currency units exactly: times 100 it gives back the balance in cents |
| `Portfolios.Funded` | src/test/java/net/bddtrader/unittests/clients/WhenAClientRegistersWithBDDTrader.java:86-110 | a new portfolio under an id holds only the funding trade, 100000 cents of cash, and exactly one position: 100000 units of CASH |
| `Portfolios.FundedPortfolioHoldings` | src/test/java/net/bddtrader/unittests/clients/WhenAClientRegistersWithBDDTrader.java:93-110 | a new portfolio has 100000 cents of cash, reports 1000.00, and holds exactly one position: `Position.fromTrade` of the funding trade, 100000 units of CASH |
| `Portfolios.PortfolioDirectory.constructor` | src/test/java/net/bddtrader/unittests/clients/WhenAClientRegistersWithBDDTrader.java:23 | a new portfolio directory is empty |
| `Portfolios.PortfolioDirectory.AddPortfolio` | src/test/java/net/bddtrader/unittests/clients/WhenAClientRegistersWithBDDTrader.java:86-93 | stores a portfolio under its id exactly when that id is free and otherwise fails with DuplicatePortfolio, leaving the store unchanged |
| `Portfolios.PortfolioDirectory.FindById` | src/test/java/net/bddtrader/unittests/clients/WhenAClientRegistersWithBDDTrader.java:119-128 | finds the portfolio stored under the id, or nothing exactly when none is stored |
| `Portfolios.PortfolioController.constructor` | src/test/java/net/bddtrader/unittests/clients/WhenAClientRegistersWithBDDTrader.java:24 | the portfolio controller works on the directory it was given |
| `Portfolios.PortfolioController.CreatePortfolioForClient` | src/test/java/net/bddtrader/unittests/clients/WhenAClientRegistersWithBDDTrader.java:86-110 | a client's new portfolio holds only the funding trade and is stored under the client's id; a taken id fails with DuplicatePortfolio and changes nothing |
| `Portfolios.PortfolioController.ViewPortfolio` | src/test/java/net/bddtrader/unittests/clients/WhenAClientRegistersWithBDDTrader.java:122-129 | returns the portfolio with this id exactly when one is stored, and otherwise fails with PortfolioNotFound for that id |
| `Portfolios.PortfolioController.ViewPortfolioForClient` | src/test/java/net/bddtrader/unittests/clients/WhenAClientRegistersWithBDDTrader.java:86-120 | returns the client's portfolio exactly when one is stored under the client's id, and otherwise fails with PortfolioNotFound |
| `Portfolios.PortfolioController.ViewPortfolioPositionsForClient` | src/test/java/net/bddtrader/unittests/clients/WhenAClientRegistersWithBDDTrader.java:99-111 | returns the positions derived from the client's trade log: unique symbols, each with its nonzero net holding; fails with PortfolioNotFound for an unknown client id |
| `Clients.Candidate` | src/test/java/net/bddtrader/unittests/clients/WhenAClientRegistersWithBDDTrader.java:37 | the builder `Client.withFirstName(..).andLastName(..).andEmail(..)` gives a candidate without an id (0), which has the mandatory fields exactly when all three strings are non-empty |
| `Clients.ClientDirectory.constructor` | src/test/java/net/bddtrader/unittests/clients/WhenAClientRegistersWithBDDTrader.java:22 | a new client directory is empty and will issue id 1 next |
| `Clients.ClientDirectory.RegisterClient` | src/test/java/net/bddtrader/unittests/clients/WhenAClientRegistersWithBDDTrader.java:61-71 | stores the candidate under the next id and appends it; the counter moves on, so every id is issued once |
| `Clients.ClientDirectory.FindClientById` | src/test/java/net/bddtrader/unittests/clients/WhenAClientRegistersWithBDDTrader.java:68-70 | finds a client exactly when the id is one of 1..N, and that client is the one registered under it; otherwise returns absence, and no stored client has the id |
| `Clients.ClientDirectory.FindAll` | src/test/java/net/bddtrader/unittests/clients/WhenAClientRegistersWithBDDTrader.java:140-143 | returns every stored client in registration order, as many as ids issued, with ids 1..N |
| `Clients.ClientController.constructor` | src/test/java/net/bddtrader/unittests/clients/WhenAClientRegistersWithBDDTrader.java:25 | the controller is built over a client directory and a portfolio controller that already agree (same ids, funded portfolios) |
| `Clients.ClientController.Register` | src/test/java/net/bddtrader/unittests/clients/WhenAClientRegistersWithBDDTrader.java:33-59 | succeeds if and only if first name, last name and email are all non-empty. On success the client gets the next id and is appended, and a funded portfolio is stored under that id. Otherwise it fails with MissingMandatoryFields and changes neither directory |
| `Clients.ClientController.FindClientById` | src/test/java/net/bddtrader/unittests/clients/WhenAClientRegistersWithBDDTrader.java:73-84 | returns the client registered under the id exactly when it is one of 1..N, and absence otherwise |
| `Clients.ClientController.FindAll` | src/test/java/net/bddtrader/unittests/clients/WhenAClientRegistersWithBDDTrader.java:132-144 | returns the registered clients in registration order, with ids 1..N |
| `Scenarios.NewLedger` | src/test/java/net/bddtrader/unittests/clients/WhenAClientRegistersWithBDDTrader.java:22-31 | a freshly built ledger has no clients and no portfolios, and satisfies the controller's invariant |
| `Scenarios.MissingMandatoryFieldIsRefused` | src/test/java/net/bddtrader/unittests/clients/WhenAClientRegistersWithBDDTrader.java:43-59 | a candidate with an empty first name, last name or email is refused with MissingMandatoryFields, and no client is listed afterwards |
| `Scenarios.FirstClientIsStoredUnderIdOne` | src/test/java/net/bddtrader/unittests/clients/WhenAClientRegistersWithBDDTrader.java:61-71 | the first valid candidate is registered with id 1, and the client directory returns exactly that client for id 1 |
| `Scenarios.RegisteredClientReadsBack` | src/test/java/net/bddtrader/unittests/clients/WhenAClientRegistersWithBDDTrader.java:73-84 | reading back by the new id through the controller gives the client `register` returned, with the candidate's names and email |
| `Scenarios.RegisteredClientHasFundedCash` | src/test/java/net/bddtrader/unittests/clients/WhenAClientRegistersWithBDDTrader.java:86-97 | the new client's portfolio is found, and its cash is exactly 1000.00 (100000 cents) |
| `Scenarios.RegisteredClientHasOnePosition` | src/test/java/net/bddtrader/unittests/clients/WhenAClientRegistersWithBDDTrader.java:99-111 | the new client has exactly one position, equal to `Position.fromTrade` of buying 100000 CASH at 1 cent each |
| `Scenarios.UnissuedPortfolioIsNotFound` | src/test/java/net/bddtrader/unittests/clients/WhenAClientRegistersWithBDDTrader.java:113-129 | after one registration, an id other than 1 (such as -1) fails with PortfolioNotFound by client id and by portfolio id |
| `Scenarios.RegisteredClientsAreListed` | src/test/java/net/bddtrader/unittests/clients/WhenAClientRegistersWithBDDTrader.java:132-144 | after registering N valid candidates in turn, the listing has exactly N clients, the i-th being the i-th candidate with id i |
| `Scenarios.UnassignedClientIsAbsent` | src/test/java/net/bddtrader/unittests/clients/WhenAClientRegistersWithBDDTrader.java:146-157 | after one registration, looking up any other client id (such as 100) gives absence, not an error |

## Left out

- The HTTP layer is not modelled: `ResponseEntity`, `getBody` and `HttpStatus.NOT_FOUND` in `ClientController.findClientById`. The controller returns an `Option` instead, and `None` stands for the 404 response.
- `TradingData.instanceFor(DEV).reset()` and the `TradingDataSource` given to `PortfolioController` are not modelled. That shared singleton supplies market data, which no modelled operation reads. Each scenario starts from a freshly built ledger (`Scenarios.NewLedger`) instead.
- Floating-point cash is not modelled: `getCash()` returns a `double`. Cash is kept in integer cents, and `Cash` reports it as an exact `real` of currency units.
- Trade entry after the funding trade is not modelled, because no workflow for it is shown. `RegisteredAndFunded` relies on this: it states that every portfolio still holds only the funding trade. `PositionsOf` and `CashInCents` are still defined and proved for any trade log.
- `Position` keeps only the symbol and the net quantity. Purchase price, market value and profit come from market data that is not part of this model.
- The portfolio's own id and its owner's client id are one value here. Portfolios are stored in a single map keyed by that id, and `PortfolioController.ViewPortfolioForClient` and `PortfolioController.ViewPortfolio` both look up that key.
- Mandatory-field validation sits in `ClientController.Register`. `ClientDirectory.RegisterClient` stores any candidate it is given.
- `ClientController.Register` ignores the candidate's id and gives it the next one. `Candidate` builds a candidate with id 0. The registered client keeps the candidate's names and email.
- The CASH position tracks only trades in CASH, while the cash balance also moves with trades in other instruments. The two agree only while every trade is in CASH at 1 cent, which is the condition of `CashInCents`'s contract. With any other trade in the log they differ.
- Java's `long` ids, quantities and cents are unbounded integers here, so overflow is not modelled. The only amount the modelled operations compute is 100000 × 1 cent.
- Concurrency and locking around registration are not modelled. The model is sequential, so each registration is atomic by construction.
- The news lookup (`src/test/java/net/bddtrader/unittests/news/WhenReadingTheNews.java`) is not modelled. It queries an external trading-data source whose results cannot be seen.
- The test title at line 34 mentions a password, but no password field appears anywhere in the test, so clients have none.
