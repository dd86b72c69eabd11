/**
 * The invoice document and its three-step payment ledger
 * (client -> distributor -> admin -> company), with the helpers that set and
 * clear one named step, and the "view own" scoping rule.
 */
module Ledger {
  import opened Basics
  import opened Commission

  datatype Step = ClientToDistributor | DistributorToAdmin | AdminToCompany

  /** The name a step has in request paths and in the stored document. */
  function StepName(s: Step): string {
    match s
    case ClientToDistributor => "clientToDistributor"
    case DistributorToAdmin => "distributorToAdmin"
    case AdminToCompany => "adminToCompany"
  }

  /** The step a request path names, or None when the name is not one of the three steps. */
  function ParseStep(name: string): (s: Option<Step>)
    ensures s.Some? ==> StepName(s.value) == name
    ensures s.None? ==> forall t: Step :: StepName(t) != name
  {
    if name == "clientToDistributor" then Some(ClientToDistributor)
    else if name == "distributorToAdmin" then Some(DistributorToAdmin)
    else if name == "adminToCompany" then Some(AdminToCompany)
    else None
  }

  /** Every step's own name parses back to it. */
  lemma ParseStepName(s: Step)
    ensures ParseStep(StepName(s)) == Some(s)
  {
  }

  /** One ledger entry; `markedBy` is the user who marked it paid. */
  datatype StepRecord = StepRecord(isPaid: bool, markedBy: Option<Id>)

  const Unpaid := StepRecord(false, None)

  datatype PaymentStatus = PaymentStatus(
    clientToDistributor: StepRecord,
    distributorToAdmin: StepRecord,
    adminToCompany: StepRecord)

  const NothingPaid := PaymentStatus(Unpaid, Unpaid, Unpaid)

  function StepOf(p: PaymentStatus, s: Step): StepRecord {
    match s
    case ClientToDistributor => p.clientToDistributor
    case DistributorToAdmin => p.distributorToAdmin
    case AdminToCompany => p.adminToCompany
  }

  /** The ledger with step `s` replaced by `rec` and the other two steps kept. */
  function WithStep(p: PaymentStatus, s: Step, rec: StepRecord): (q: PaymentStatus)
    ensures StepOf(q, s) == rec
    ensures forall t :: t != s ==> StepOf(q, t) == StepOf(p, t)
  {
    match s
    case ClientToDistributor => p.(clientToDistributor := rec)
    case DistributorToAdmin => p.(distributorToAdmin := rec)
    case AdminToCompany => p.(adminToCompany := rec)
  }

  /** An invoice as stored, with its frozen rate snapshot and its ledger. */
  datatype Invoice = Invoice(
    invoiceCode: string,
    client: Id,
    file: Id,
    assignedDistributor: Id,
    invoiceDate: string,
    amount: real,
    rates: Rates,
    status: Option<string>,   // None: the schema's default status
    createdBy: Id,
    payment: PaymentStatus)

  predicate IsPaid(inv: Invoice, s: Step) {
    StepOf(inv.payment, s).isPaid
  }

  /** Marks step `s` paid by `user`; every other field and step is kept. */
  function MarkStep(inv: Invoice, s: Step, user: Id): (r: Invoice)
    ensures IsPaid(r, s) && StepOf(r.payment, s).markedBy == Some(user)
    ensures forall t :: t != s ==> StepOf(r.payment, t) == StepOf(inv.payment, t)
    ensures r.(payment := inv.payment) == inv
  {
    inv.(payment := WithStep(inv.payment, s, StepRecord(true, Some(user))))
  }

  /** Clears step `s` (unpaid, no marker); every other field and step is kept. */
  function UnmarkStep(inv: Invoice, s: Step): (r: Invoice)
    ensures StepOf(r.payment, s) == Unpaid
    ensures forall t :: t != s ==> StepOf(r.payment, t) == StepOf(inv.payment, t)
    ensures r.(payment := inv.payment) == inv
  {
    inv.(payment := WithStep(inv.payment, s, Unpaid))
  }

  /** Unmarking a step that was marked from the cleared state restores the invoice exactly. */
  lemma UnmarkUndoesMark(inv: Invoice, s: Step, user: Id)
    requires StepOf(inv.payment, s) == Unpaid
    ensures UnmarkStep(MarkStep(inv, s, user), s) == inv
  {
  }

  /**
   * The settlement order: a step is paid only when the step before it is.
   * The four states it allows are 000, 100, 110 and 111.
   */
  predicate Ordered(p: PaymentStatus) {
    && (p.distributorToAdmin.isPaid ==> p.clientToDistributor.isPaid)
    && (p.adminToCompany.isPaid ==> p.distributorToAdmin.isPaid)
  }

  /** Unmarking the last paid step keeps the ledger in order. */
  lemma UnmarkLastPaidKeepsOrder(inv: Invoice, s: Step)
    requires Ordered(inv.payment)
    requires forall t :: t != s && StepOf(inv.payment, t).isPaid ==> Before(t, s)
    ensures Ordered(UnmarkStep(inv, s).payment)
  {
    match s
    case ClientToDistributor =>
      assert !StepOf(inv.payment, DistributorToAdmin).isPaid;
    case DistributorToAdmin =>
      assert !StepOf(inv.payment, AdminToCompany).isPaid;
    case AdminToCompany =>
  }

  /** Unmarking the first step while the second is paid leaves the ledger out of order: the route does not guard against this. */
  lemma UnmarkEarlierStepBreaksOrder(inv: Invoice)
    requires IsPaid(inv, DistributorToAdmin)
    ensures !Ordered(UnmarkStep(inv, ClientToDistributor).payment)
  {
  }

  /** The position of a step in the settlement chain. */
  function Position(s: Step): nat {
    match s
    case ClientToDistributor => 0
    case DistributorToAdmin => 1
    case AdminToCompany => 2
  }

  predicate Before(s: Step, t: Step) {
    Position(s) < Position(t)
  }

  /** A new invoice starts with the cleared ledger, which is in order. */
  lemma NothingPaidIsOrdered()
    ensures Ordered(NothingPaid)
    ensures forall s :: !StepOf(NothingPaid, s).isPaid
  {
  }

  /** Under "view own" (can view own, cannot view all) only invoices assigned to the caller are in scope. */
  function InScope(c: Caller, inv: Invoice): (b: bool)
    // a caller who can view all sees every invoice
    ensures c.canViewAll ==> b
    // a "view own" caller sees exactly the invoices assigned to it
    ensures OwnOnly(c) ==> (b <==> inv.assignedDistributor == c.id)
    // with neither level the query is not narrowed (the access middleware stands in front of the route)
    ensures !c.canViewAll && !c.canViewOwn ==> b
  {
    !OwnOnly(c) || inv.assignedDistributor == c.id
  }
}
