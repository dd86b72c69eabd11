/**
 * Bulk settlement: the three selections the bulk-pay routes make over the
 * stored invoices, and what marking a whole selection does to the store.
 */
module Settlement {
  import opened Basics
  import opened Commission
  import opened Ledger

  /** What a bulk-pay request asks for. */
  datatype Criterion =
    // a distributor settles every unpaid invoice of one client assigned to it
    | ClientPay(clientId: Id, distributorId: Id)
    // an admin settles every invoice of one distributor that the client already paid
    | DistributorPay(distributorId: Id)
    // an admin settles every invoice of one company (through its file's stored owner) that the distributor already paid
    | CompanyPay(companyId: Id, dir: Directory)

  /** The step a bulk settlement marks. */
  function TargetStep(c: Criterion): Step {
    match c
    case ClientPay(_, _) => ClientToDistributor
    case DistributorPay(_) => DistributorToAdmin
    case CompanyPay(_, _) => AdminToCompany
  }

  /**
   * The query of each bulk-pay route. A selected invoice still owes the
   * target step, and the step just before it in the chain is already paid.
   */
  function Eligible(inv: Invoice, c: Criterion): (b: bool)
    ensures b ==> !IsPaid(inv, TargetStep(c))
    ensures b ==> forall t :: Position(t) + 1 == Position(TargetStep(c)) ==> IsPaid(inv, t)
    ensures b && c.CompanyPay? ==> FileOwner(c.dir, inv.file) == Some(c.companyId)
  {
    match c
    case ClientPay(cl, d) =>
      inv.client == cl && inv.assignedDistributor == d && !IsPaid(inv, ClientToDistributor)
    case DistributorPay(d) =>
      inv.assignedDistributor == d && IsPaid(inv, ClientToDistributor) && !IsPaid(inv, DistributorToAdmin)
    case CompanyPay(co, dir) =>
      IsPaid(inv, DistributorToAdmin) && !IsPaid(inv, AdminToCompany) && FileOwner(dir, inv.file) == Some(co)
  }

  /** The ids of the stored invoices a bulk settlement selects. */
  function Select(m: map<Id, Invoice>, c: Criterion): (sel: set<Id>)
    ensures sel <= m.Keys
  {
    set id | id in m && Eligible(m[id], c)
  }

  /** The store after marking step `s` by `user` on every invoice in `sel`. */
  function MarkAll(m: map<Id, Invoice>, sel: set<Id>, s: Step, user: Id): (r: map<Id, Invoice>)
    ensures r.Keys == m.Keys
  {
    map id | id in m :: if id in sel then MarkStep(m[id], s, user) else m[id]
  }

  /** The ids of the stored invoices whose step `s` is paid. */
  function PaidSet(m: map<Id, Invoice>, s: Step): (paid: set<Id>)
    ensures paid <= m.Keys
  {
    set id | id in m && IsPaid(m[id], s)
  }

  /** Marking one more invoice extends a partial settlement by that invoice alone. */
  lemma MarkAllExtend(m: map<Id, Invoice>, done: set<Id>, id: Id, s: Step, user: Id)
    requires id in m && id !in done
    ensures MarkAll(m, done + {id}, s, user) == MarkAll(m, done, s, user)[id := MarkStep(m[id], s, user)]
  {
  }

  /** Running the same bulk settlement again right after a run finds nothing to mark. */
  lemma RerunFindsNothing(m: map<Id, Invoice>, c: Criterion, user: Id)
    ensures Select(MarkAll(m, Select(m, c), TargetStep(c), user), c) == {}
  {
    var sel := Select(m, c);
    var after := MarkAll(m, sel, TargetStep(c), user);
    forall id | id in after
      ensures !Eligible(after[id], c)
    {
      if id in sel {
        assert IsPaid(after[id], TargetStep(c));
      } else {
        assert after[id] == m[id];
      }
    }
  }

  /**
   * Marking a selection pays exactly the selected invoices' target step: the
   * invoices paid afterwards are those paid before plus the selection, which
   * was disjoint from them, so the count of marked invoices is the size of the
   * selection.
   */
  lemma SettlementCount(m: map<Id, Invoice>, c: Criterion, user: Id)
    ensures PaidSet(m, TargetStep(c)) !! Select(m, c)
    ensures PaidSet(MarkAll(m, Select(m, c), TargetStep(c), user), TargetStep(c))
            == PaidSet(m, TargetStep(c)) + Select(m, c)
    ensures |PaidSet(MarkAll(m, Select(m, c), TargetStep(c), user), TargetStep(c))|
            == |PaidSet(m, TargetStep(c))| + |Select(m, c)|
  {
    var s := TargetStep(c);
    var sel := Select(m, c);
    var after := MarkAll(m, sel, s, user);
    assert forall id :: id in sel ==> !IsPaid(m[id], s);
    forall id | id in after
      ensures IsPaid(after[id], s) <==> IsPaid(m[id], s) || id in sel
    {
      if id !in sel {
        assert after[id] == m[id];
      }
    }
    assert PaidSet(after, s) == PaidSet(m, s) + sel;
  }

  /** A bulk settlement keeps every ledger in settlement order: each route marks only invoices whose earlier steps are paid. */
  lemma SettlementKeepsOrder(m: map<Id, Invoice>, c: Criterion, user: Id)
    requires forall id :: id in m ==> Ordered(m[id].payment)
    ensures var after := MarkAll(m, Select(m, c), TargetStep(c), user);
            forall id :: id in after ==> Ordered(after[id].payment)
  {
    var sel := Select(m, c);
    var after := MarkAll(m, sel, TargetStep(c), user);
    forall id | id in after
      ensures Ordered(after[id].payment)
    {
      var p := m[id].payment;
      var q := after[id].payment;
      assert Ordered(p);
      if id in sel {
        assert Eligible(m[id], c);
        match c
        case ClientPay(_, _) =>
          assert q.distributorToAdmin == p.distributorToAdmin && q.adminToCompany == p.adminToCompany;
        case DistributorPay(_) =>
          assert q.clientToDistributor == p.clientToDistributor && q.adminToCompany == p.adminToCompany;
        case CompanyPay(_, _) =>
          assert q.clientToDistributor == p.clientToDistributor && q.distributorToAdmin == p.distributorToAdmin;
      } else {
        assert after[id] == m[id];
      }
    }
  }

  /** Two invoices of one distributor, only the first already paid by the client. */
  function TwoInvoiceStore(base: Invoice, d: Id): map<Id, Invoice> {
    var paidByClient := base.(assignedDistributor := d,
      payment := PaymentStatus(StepRecord(true, Some(d)), Unpaid, Unpaid));
    var unpaid := base.(assignedDistributor := d, payment := NothingPaid);
    map[1 := paidByClient, 2 := unpaid]
  }

  /** Worked example: a distributor settlement over those two invoices selects exactly the first one. */
  lemma DistributorPayExample(base: Invoice, d: Id)
    ensures Select(TwoInvoiceStore(base, d), DistributorPay(d)) == {1}
    ensures |Select(TwoInvoiceStore(base, d), DistributorPay(d))| == 1
  {
    var m := TwoInvoiceStore(base, d);
    assert Eligible(m[1], DistributorPay(d));
    assert !Eligible(m[2], DistributorPay(d));
    assert Select(m, DistributorPay(d)) == {1};
  }
}
