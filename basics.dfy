/** Shared vocabulary of the invoice routes: document ids, the caller, and typed outcomes. */
module Basics {

  /** A document id (a MongoDB ObjectId in the system). */
  type Id = nat

  datatype Option<T> = None | Some(value: T)

  /** The failures the invoice routes report to the user (as flash messages or JSON errors). */
  datatype Error =
    | InvalidStep      // the step name is not one of the three ledger steps
    | NotFound         // no invoice matches, or it is outside the caller's scope
    | Forbidden        // the caller's role or the per-invoice permission check refuses
    | AlreadyPaid      // the step is already marked paid
    | NothingEligible  // a bulk settlement found no invoice to mark
    | InvalidAmount    // the commission preview got a missing or non-positive amount
    | NoExportData     // the export got a missing, non-list or empty payload

  datatype Result<T> = Ok(value: T) | Err(error: Error)

  /** The session user's role name, compared as a string by the routes. */
  type Role = string

  /** The two role names the routes test for. */
  const Admin: Role := "admin"
  const Distributor: Role := "distributor"

  /** The session user together with the permission level the access middleware derives for it. */
  datatype Caller = Caller(id: Id, role: Role, canViewAll: bool, canViewOwn: bool)

  /** The caller may only see invoices assigned to itself. */
  predicate OwnOnly(c: Caller) {
    !c.canViewAll && c.canViewOwn
  }
}
