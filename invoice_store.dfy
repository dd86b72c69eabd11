/**
 * The invoice routes over an in-memory store: a map from invoice id to the
 * stored invoice, which the handlers look up, update and delete in place.
 */
module InvoiceRoutes {
  import opened Basics
  import opened Commission
  import opened Ledger
  import opened Settlement

  /** The fields of the create and edit forms. `amount` is None when it does not parse as a number. */
  datatype InvoiceForm = InvoiceForm(
    invoiceCode: string,
    client: Id,
    file: Id,
    assignedDistributor: Id,
    invoiceDate: string,
    amount: Option<real>)

  /** A new invoice: rates snapshotted for its parties and amount, nothing paid yet. */
  function NewInvoice(form: InvoiceForm, creator: Id, dir: Directory): (inv: Invoice)
    ensures inv.amount == ParsedAmount(form.amount)
    ensures inv.rates == SnapshotRates(dir, inv.client, inv.assignedDistributor, inv.file, inv.amount)
    ensures inv.client == form.client && inv.file == form.file && inv.assignedDistributor == form.assignedDistributor
    ensures inv.createdBy == creator && inv.status.None?
    ensures inv.payment == NothingPaid && Ordered(inv.payment)
  {
    var amount := ParsedAmount(form.amount);
    Invoice(form.invoiceCode, form.client, form.file, form.assignedDistributor, form.invoiceDate, amount,
            SnapshotRates(dir, form.client, form.assignedDistributor, form.file, amount),
            None, creator, NothingPaid)
  }

  /** An edited invoice: the snapshot is recomputed from the new values; the ledger and the creator are kept. */
  function Revised(inv: Invoice, form: InvoiceForm, status: string, dir: Directory): (r: Invoice)
    ensures r.amount == ParsedAmount(form.amount)
    ensures r.rates == SnapshotRates(dir, r.client, r.assignedDistributor, r.file, r.amount)
    ensures r.client == form.client && r.file == form.file && r.assignedDistributor == form.assignedDistributor
    ensures r.status == Some(status)
    ensures r.payment == inv.payment && r.createdBy == inv.createdBy
  {
    var amount := ParsedAmount(form.amount);
    inv.(invoiceCode := form.invoiceCode, client := form.client, file := form.file,
         assignedDistributor := form.assignedDistributor, invoiceDate := form.invoiceDate,
         amount := amount,
         rates := SnapshotRates(dir, form.client, form.assignedDistributor, form.file, amount),
         status := Some(status))
  }

  class InvoiceStore {
    var invoices: map<Id, Invoice>
    var nextId: Id

    /** Every stored id was handed out before `nextId`. */
    ghost predicate Valid()
      reads this
    {
      forall id :: id in invoices ==> id < nextId
    }

    constructor ()
      ensures Valid() && invoices == map[] && nextId == 0
    {
      invoices := map[];
      nextId := 0;
    }

    /** The invoice list: every invoice in the caller's scope. */
    method List(caller: Caller) returns (visible: map<Id, Invoice>)
      ensures forall id :: id in visible <==> id in invoices && InScope(caller, invoices[id])
      ensures forall id :: id in visible ==> visible[id] == invoices[id]
      ensures OwnOnly(caller) ==> forall id :: id in visible ==> visible[id].assignedDistributor == caller.id
      ensures !OwnOnly(caller) ==> visible == invoices
    {
      visible := map id | id in invoices && InScope(caller, invoices[id]) :: invoices[id];
    }

    /** The scoped single-invoice lookup of the edit form and of the mark route. */
    method Find(caller: Caller, id: Id) returns (found: Option<Invoice>)
      ensures found.Some? <==> id in invoices && InScope(caller, invoices[id])
      ensures found.Some? ==> found.value == invoices[id]
      ensures found.Some? && OwnOnly(caller) ==> found.value.assignedDistributor == caller.id
    {
      if id in invoices && InScope(caller, invoices[id]) {
        found := Some(invoices[id]);
      } else {
        found := None;
      }
    }

    /** Creates an invoice under a fresh id, with its rate snapshot and nothing paid. */
    method Create(caller: Caller, form: InvoiceForm, dir: Directory) returns (id: Id)
      requires Valid()
      modifies this
      ensures Valid()
      ensures id !in old(invoices)
      ensures invoices == old(invoices)[id := NewInvoice(form, caller.id, dir)]
    {
      id := nextId;
      invoices := invoices[id := NewInvoice(form, caller.id, dir)];
      nextId := nextId + 1;
    }

    /** Marks one step of one invoice paid, after the step, scope, permission and already-paid checks. */
    method MarkPayment(caller: Caller, id: Id, stepName: string, canMark: (Invoice, Id, Role, Step) -> bool)
      returns (r: Result<()>)
      requires Valid()
      modifies this
      ensures Valid() && nextId == old(nextId)
      ensures r.Err? ==> invoices == old(invoices)
      ensures ParseStep(stepName).None? ==> r == Err(InvalidStep)
      ensures ParseStep(stepName).Some? && !(id in old(invoices) && InScope(caller, old(invoices)[id])) ==>
                r == Err(NotFound)
      ensures ParseStep(stepName).Some? && id in old(invoices) && InScope(caller, old(invoices)[id]) ==>
                var s, inv := ParseStep(stepName).value, old(invoices)[id];
                && (!canMark(inv, caller.id, caller.role, s) ==> r == Err(Forbidden))
                && (canMark(inv, caller.id, caller.role, s) && IsPaid(inv, s) ==> r == Err(AlreadyPaid))
                && (canMark(inv, caller.id, caller.role, s) && !IsPaid(inv, s) ==>
                      r == Ok(()) && invoices == old(invoices)[id := MarkStep(inv, s, caller.id)])
    {
      var step := ParseStep(stepName);
      if step.None? {
        return Err(InvalidStep);
      }
      var s := step.value;
      var found := Find(caller, id);
      if found.None? {
        return Err(NotFound);
      }
      var inv := found.value;
      if !canMark(inv, caller.id, caller.role, s) {
        return Err(Forbidden);
      }
      if IsPaid(inv, s) {
        return Err(AlreadyPaid);
      }
      invoices := invoices[id := MarkStep(inv, s, caller.id)];
      r := Ok(());
    }

    /**
     * Marks the target step on every invoice the criterion selects, one at a
     * time, and reports how many were marked; an empty selection is an error.
     */
    method Settle(c: Criterion, user: Id) returns (r: Result<nat>)
      requires Valid()
      modifies this
      ensures Valid() && nextId == old(nextId)
      ensures Select(old(invoices), c) == {} ==> r == Err(NothingEligible) && invoices == old(invoices)
      ensures Select(old(invoices), c) != {} ==>
                && r == Ok(|Select(old(invoices), c)|)
                && invoices == MarkAll(old(invoices), Select(old(invoices), c), TargetStep(c), user)
    {
      var sel := Select(invoices, c);
      if sel == {} {
        return Err(NothingEligible);
      }
      var s := TargetStep(c);
      ghost var before := invoices;
      var pending := sel;
      var updatedCount := 0;
      while pending != {}
        invariant pending <= sel
        invariant updatedCount + |pending| == |sel|
        invariant invoices == MarkAll(before, sel - pending, s, user)
        invariant nextId == old(nextId)
        decreases |pending|
      {
        var id :| id in pending;
        MarkAllExtend(before, sel - pending, id, s, user);
        assert sel - (pending - {id}) == (sel - pending) + {id};
        invoices := invoices[id := MarkStep(invoices[id], s, user)];
        pending := pending - {id};
        updatedCount := updatedCount + 1;
      }
      r := Ok(updatedCount);
    }

    /** A distributor settles its client's payments for one client. */
    method BulkPayClient(caller: Caller, clientId: Id) returns (r: Result<nat>)
      requires Valid()
      modifies this
      ensures Valid() && nextId == old(nextId)
      ensures caller.role != Distributor ==> r == Err(Forbidden) && invoices == old(invoices)
      ensures caller.role == Distributor ==>
                var sel := Select(old(invoices), ClientPay(clientId, caller.id));
                && (sel == {} ==> r == Err(NothingEligible) && invoices == old(invoices))
                && (sel != {} ==> r == Ok(|sel|) && invoices == MarkAll(old(invoices), sel, ClientToDistributor, caller.id))
    {
      if caller.role != Distributor {
        return Err(Forbidden);
      }
      r := Settle(ClientPay(clientId, caller.id), caller.id);
    }

    /** An admin settles one distributor's client-paid invoices. */
    method BulkPayDistributor(caller: Caller, distributorId: Id) returns (r: Result<nat>)
      requires Valid()
      modifies this
      ensures Valid() && nextId == old(nextId)
      ensures caller.role != Admin ==> r == Err(Forbidden) && invoices == old(invoices)
      ensures caller.role == Admin ==>
                var sel := Select(old(invoices), DistributorPay(distributorId));
                && (sel == {} ==> r == Err(NothingEligible) && invoices == old(invoices))
                && (sel != {} ==> r == Ok(|sel|) && invoices == MarkAll(old(invoices), sel, DistributorToAdmin, caller.id))
    {
      if caller.role != Admin {
        return Err(Forbidden);
      }
      r := Settle(DistributorPay(distributorId), caller.id);
    }

    /** An admin settles one company's distributor-paid invoices, reaching the company through each invoice's file. */
    method BulkPayCompany(caller: Caller, companyId: Id, dir: Directory) returns (r: Result<nat>)
      requires Valid()
      modifies this
      ensures Valid() && nextId == old(nextId)
      ensures caller.role != Admin ==> r == Err(Forbidden) && invoices == old(invoices)
      ensures caller.role == Admin ==>
                var sel := Select(old(invoices), CompanyPay(companyId, dir));
                && (sel == {} ==> r == Err(NothingEligible) && invoices == old(invoices))
                && (sel != {} ==> r == Ok(|sel|) && invoices == MarkAll(old(invoices), sel, AdminToCompany, caller.id))
    {
      if caller.role != Admin {
        return Err(Forbidden);
      }
      r := Settle(CompanyPay(companyId, dir), caller.id);
    }

    /** An admin clears one step of any invoice; neither the step's state nor the later steps are checked. */
    method UnmarkPayment(caller: Caller, id: Id, stepName: string) returns (r: Result<()>)
      requires Valid()
      modifies this
      ensures Valid() && nextId == old(nextId)
      ensures r.Err? ==> invoices == old(invoices)
      ensures ParseStep(stepName).None? ==> r == Err(InvalidStep)
      ensures ParseStep(stepName).Some? && caller.role != Admin ==> r == Err(Forbidden)
      ensures ParseStep(stepName).Some? && caller.role == Admin && id !in old(invoices) ==> r == Err(NotFound)
      ensures ParseStep(stepName).Some? && caller.role == Admin && id in old(invoices) ==>
                r == Ok(()) && invoices == old(invoices)[id := UnmarkStep(old(invoices)[id], ParseStep(stepName).value)]
    {
      var step := ParseStep(stepName);
      if step.None? {
        return Err(InvalidStep);
      }
      if caller.role != Admin {
        return Err(Forbidden);
      }
      if id !in invoices {
        return Err(NotFound);
      }
      invoices := invoices[id := UnmarkStep(invoices[id], step.value)];
      r := Ok(());
    }

    /** Saves an edit of an invoice in the caller's scope, recomputing its rate snapshot. */
    method Update(caller: Caller, id: Id, form: InvoiceForm, status: string, dir: Directory) returns (r: Result<()>)
      requires Valid()
      modifies this
      ensures Valid() && nextId == old(nextId)
      ensures r.Ok? <==> id in old(invoices) && InScope(caller, old(invoices)[id])
      ensures r.Ok? ==> invoices == old(invoices)[id := Revised(old(invoices)[id], form, status, dir)]
      ensures r.Err? ==> r.error == NotFound && invoices == old(invoices)
    {
      if id in invoices && InScope(caller, invoices[id]) {
        invoices := invoices[id := Revised(invoices[id], form, status, dir)];
        r := Ok(());
      } else {
        r := Err(NotFound);
      }
    }

    /** Deletes an invoice in the caller's scope. */
    method Delete(caller: Caller, id: Id) returns (r: Result<()>)
      requires Valid()
      modifies this
      ensures Valid() && nextId == old(nextId)
      ensures r.Ok? <==> id in old(invoices) && InScope(caller, old(invoices)[id])
      ensures r.Ok? ==> invoices == old(invoices) - {id}
      ensures r.Err? ==> r.error == NotFound && invoices == old(invoices)
    {
      if id in invoices && InScope(caller, invoices[id]) {
        invoices := invoices - {id};
        r := Ok(());
      } else {
        r := Err(NotFound);
      }
    }
  }
}
