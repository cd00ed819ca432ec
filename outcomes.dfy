/** Absence and error values shared by the ledger's directories and controllers. */
module Outcomes {

  /** A lookup that may find nothing (a client lookup by id). */
  datatype Option<T> = None | Some(value: T)

  /** The ledger's error taxonomy; each variant stands for one exception of the system. */
  datatype LedgerError =
    | MissingMandatoryFields        // a candidate client lacks first name, last name or email
    | PortfolioNotFound(id: int)    // no portfolio is stored under this id
    | InvalidTrade                  // a trade with a non-positive quantity or a negative price
    | DuplicatePortfolio(id: int)   // a portfolio already exists under this id

  /** The outcome of an operation that either yields a value or raises a ledger error. */
  datatype Result<T> = Ok(value: T) | Err(error: LedgerError)
}
