/**
 * Clients: registration with mandatory fields, sequential ids from 1, lookup by id and listing,
 * and the controller that gives every newly registered client a funded portfolio under its id.
 */
module Clients {
  import opened Outcomes
  import opened Portfolios

  /** A client; a candidate that is not registered yet carries id 0. */
  datatype Client = Client(id: int, firstName: string, lastName: string, email: string)

  /** The builder `Client.withFirstName(f).andLastName(l).andEmail(e)`: a candidate without an id. */
  function Candidate(firstName: string, lastName: string, email: string): (c: Client)
    ensures c.id == 0
    ensures HasMandatoryFields(c) <==> firstName != "" && lastName != "" && email != ""
  {
    Client(0, firstName, lastName, email)
  }

  /** Registration demands a non-empty first name, last name and email. */
  predicate HasMandatoryFields(c: Client) {
    c.firstName != "" && c.lastName != "" && c.email != ""
  }

  /** The in-memory store of clients, in registration order, and the counter that issues their ids. */
  class ClientDirectory {
    var clients: seq<Client>
    var nextId: int

    /** The client registered k-th (counting from 1) has id k, and the counter is one past the last id. */
    ghost predicate Valid()
      reads this
    {
      && nextId == |clients| + 1
      && forall i :: 0 <= i < |clients| ==> clients[i].id == i + 1
    }

    constructor ()
      ensures Valid() && clients == []
    {
      clients := [];
      nextId := 1;
    }

    /** Stores the candidate under the next id, which is never issued again. */
    method RegisterClient(candidate: Client) returns (registered: Client)
      requires Valid()
      modifies this
      ensures Valid()
      ensures registered == candidate.(id := old(nextId))
      ensures clients == old(clients) + [registered]
    {
      registered := candidate.(id := nextId);
      clients := clients + [registered];
      nextId := nextId + 1;
    }

    /** `findClientById`: the client with this id, or None (absence is not an error). */
    method FindClientById(id: int) returns (found: Option<Client>)
      requires Valid()
      ensures found.Some? <==> 1 <= id <= |clients|
      ensures found.Some? ==> found.value == clients[id - 1] && found.value.id == id
      ensures found.None? ==> forall c :: c in clients ==> c.id != id
    {
      var i := 0;
      while i < |clients|
        invariant 0 <= i <= |clients|
        invariant forall j :: 0 <= j < i ==> clients[j].id != id
        invariant 1 <= id ==> i < id
      {
        if clients[i].id == id {
          return Some(clients[i]);
        }
        i := i + 1;
      }
      return None;
    }

    /** `findAll`: every registered client, in registration order. */
    method FindAll() returns (all: seq<Client>)
      requires Valid()
      ensures all == clients
      ensures |all| == nextId - 1
      ensures forall i :: 0 <= i < |all| ==> all[i].id == i + 1
    {
      all := clients;
    }
  }

  /**
   * Every registered client, and nobody else, has a portfolio under its own id, and (no trade entry
   * being modelled) that portfolio still holds just the funding trade.
   */
  ghost predicate RegisteredAndFunded(clients: seq<Client>, portfolios: map<int, Portfolio>) {
    && (forall id :: id in portfolios <==> 1 <= id <= |clients|)
    && (forall id :: id in portfolios ==> portfolios[id] == Funded(id))
  }

  /** Registers clients and answers client queries, delegating portfolios to the portfolio controller. */
  class ClientController {
    const clientDirectory: ClientDirectory
    const portfolioController: PortfolioController

    ghost predicate Valid()
      reads clientDirectory, portfolioController.directory
    {
      && clientDirectory.Valid()
      && portfolioController.directory.Valid()
      && RegisteredAndFunded(clientDirectory.clients, portfolioController.directory.portfolios)
    }

    constructor (clientDirectory: ClientDirectory, portfolioController: PortfolioController)
      requires clientDirectory.Valid() && portfolioController.directory.Valid()
      requires RegisteredAndFunded(clientDirectory.clients, portfolioController.directory.portfolios)
      ensures this.clientDirectory == clientDirectory && this.portfolioController == portfolioController
      ensures Valid()
    {
      this.clientDirectory := clientDirectory;
      this.portfolioController := portfolioController;
    }

    /**
     * `register`: a candidate with all mandatory fields gets the next id and a funded portfolio under
     * that id; one without them is refused with MissingMandatoryFields and changes nothing.
     */
    method Register(candidate: Client) returns (r: Result<Client>)
      requires Valid()
      modifies clientDirectory, portfolioController.directory
      ensures Valid()
      ensures r.Ok? <==> HasMandatoryFields(candidate)
      ensures r.Err? ==> r.error == MissingMandatoryFields
      ensures r.Err? ==> unchanged(clientDirectory, portfolioController.directory)
      ensures r.Ok? ==> r.value == candidate.(id := old(clientDirectory.nextId))
      ensures r.Ok? ==> r.value.id == old(|clientDirectory.clients|) + 1
      ensures r.Ok? ==> clientDirectory.clients == old(clientDirectory.clients) + [r.value]
      ensures r.Ok? ==> portfolioController.directory.portfolios
                          == old(portfolioController.directory.portfolios)[r.value.id := Funded(r.value.id)]
    {
      if !HasMandatoryFields(candidate) {
        return Err(MissingMandatoryFields);
      }
      var client := clientDirectory.RegisterClient(candidate);
      var created := portfolioController.CreatePortfolioForClient(client.id);
      assert created.Ok?;
      r := Ok(client);
    }

    /** `findClientById`: the registered client with this id, or None when no client has it. */
    method FindClientById(id: int) returns (found: Option<Client>)
      requires Valid()
      ensures found.Some? <==> 1 <= id <= |clientDirectory.clients|
      ensures found.Some? ==> found.value == clientDirectory.clients[id - 1] && found.value.id == id
    {
      found := clientDirectory.FindClientById(id);
    }

    /** `findAll`: the registered clients in registration order, with ids 1 to N. */
    method FindAll() returns (all: seq<Client>)
      requires Valid()
      ensures all == clientDirectory.clients
      ensures forall i :: 0 <= i < |all| ==> all[i].id == i + 1
    {
      all := clientDirectory.FindAll();
    }
  }
}
