/**
 * Commission-rate resolution and the rate snapshot taken when an invoice is
 * previewed, created or updated.
 *
 * A rate is a percentage. The lookup first asks the commission-tier table for
 * a rate that applies to the amount; only when that answers "no tier" does it
 * fall back to the entity's own default rate, and to 0 when the entity itself
 * is missing.
 */
module Commission {
  import opened Basics

  /** The entity kinds the rate lookup switches on; any other kind name falls through the switch. */
  datatype EntityKind = ClientEntity | DistributorEntity | CompanyEntity | UnknownEntity(name: string)

  /**
   * The data the rate lookup consults.
   * `tierRate` stands for the tier-table query (a rate, or None when no tier applies);
   * the three maps hold the default `commissionRate` of each stored client, user and company;
   * `fileCompany` maps each stored file to its owning company, if it has one.
   */
  datatype Directory = Directory(
    tierRate: (EntityKind, Id, real) -> Option<real>,
    clientRates: map<Id, real>,
    userRates: map<Id, real>,
    companyRates: map<Id, real>,
    fileCompany: map<Id, Option<Id>>)

  /** The default rates of the collection the lookup reads for `kind` (none for an unknown kind). */
  function DefaultRates(dir: Directory, kind: EntityKind): map<Id, real> {
    match kind
    case ClientEntity => dir.clientRates
    case DistributorEntity => dir.userRates
    case CompanyEntity => dir.companyRates
    case UnknownEntity(_) => map[]
  }

  /** The rate of entity `id` of kind `kind` for an invoice of `amount`. */
  function ResolveRate(dir: Directory, kind: EntityKind, id: Id, amount: real): (rate: real)
    // a tier that applies always wins, even a tier whose rate is 0
    ensures dir.tierRate(kind, id, amount).Some? ==> rate == dir.tierRate(kind, id, amount).value
    // without a tier, a stored entity's default rate is used
    ensures dir.tierRate(kind, id, amount).None? && id in DefaultRates(dir, kind) ==>
              rate == DefaultRates(dir, kind)[id]
    // without a tier and without the entity, the rate is 0
    ensures dir.tierRate(kind, id, amount).None? && id !in DefaultRates(dir, kind) ==> rate == 0.0
  {
    match dir.tierRate(kind, id, amount)
    case Some(r) => r
    case None => if id in DefaultRates(dir, kind) then DefaultRates(dir, kind)[id] else 0.0
  }

  /** The default rates are consulted only when no tier applies: two directories that agree on the tier agree on the rate. */
  lemma DefaultsIrrelevantUnderTier(d1: Directory, d2: Directory, kind: EntityKind, id: Id, amount: real)
    requires d1.tierRate(kind, id, amount).Some?
    requires d1.tierRate(kind, id, amount) == d2.tierRate(kind, id, amount)
    ensures ResolveRate(d1, kind, id, amount) == ResolveRate(d2, kind, id, amount)
  {
  }

  /** A kind outside client/distributor/company yields the tier rate or 0, never a stored default. */
  lemma UnknownKindRate(dir: Directory, name: string, id: Id, amount: real)
    ensures var tier := dir.tierRate(UnknownEntity(name), id, amount);
            ResolveRate(dir, UnknownEntity(name), id, amount) == (if tier.Some? then tier.value else 0.0)
  {
  }

  /**
   * The company a file's populated `company` reference yields: none when the
   * file is not stored, has no company, or names a company that is no longer
   * stored (deleting a company leaves its files pointing at it).
   */
  function FileOwner(dir: Directory, fileId: Id): (owner: Option<Id>)
    ensures owner.Some? <==> fileId in dir.fileCompany && dir.fileCompany[fileId].Some?
                             && dir.fileCompany[fileId].value in dir.companyRates
    ensures owner.Some? ==> owner == dir.fileCompany[fileId] && owner.value in dir.companyRates
  {
    if fileId in dir.fileCompany && dir.fileCompany[fileId].Some? && dir.fileCompany[fileId].value in dir.companyRates then
      dir.fileCompany[fileId]
    else
      None
  }

  /** The company rate reaches the company through the invoice's file; without a stored owning company it is 0. */
  function CompanyRate(dir: Directory, fileId: Id, amount: real): (rate: real)
    ensures FileOwner(dir, fileId).None? ==> rate == 0.0
    ensures FileOwner(dir, fileId).Some? ==> rate == ResolveRate(dir, CompanyEntity, FileOwner(dir, fileId).value, amount)
  {
    match FileOwner(dir, fileId)
    case None => 0.0
    case Some(co) => ResolveRate(dir, CompanyEntity, co, amount)
  }

  /** A file whose company was deleted gets rate 0, whatever the tier table answers for the stale company id. */
  lemma DeletedCompanyRate(dir: Directory, fileId: Id, amount: real)
    requires fileId in dir.fileCompany && dir.fileCompany[fileId].Some?
    requires dir.fileCompany[fileId].value !in dir.companyRates
    ensures CompanyRate(dir, fileId, amount) == 0.0
  {
  }

  /** Every rate the directory can answer with, from a tier or a stored default, is a percentage between 0 and 100. */
  ghost predicate RatesInRange(dir: Directory) {
    && (forall kind, id, amount :: dir.tierRate(kind, id, amount).Some? ==> 0.0 <= dir.tierRate(kind, id, amount).value <= 100.0)
    && (forall id :: id in dir.clientRates ==> 0.0 <= dir.clientRates[id] <= 100.0)
    && (forall id :: id in dir.userRates ==> 0.0 <= dir.userRates[id] <= 100.0)
    && (forall id :: id in dir.companyRates ==> 0.0 <= dir.companyRates[id] <= 100.0)
  }

  /** The three rates frozen onto an invoice. */
  datatype Rates = Rates(clientRate: real, distributorRate: real, companyRate: real)

  /**
   * The rate snapshot for an invoice of `amount` between these parties: the
   * client's and the distributor's resolved rates and the company rate reached
   * through the file. It only ever holds rates the directory answers with, or 0.
   */
  function SnapshotRates(dir: Directory, clientId: Id, distributorId: Id, fileId: Id, amount: real): (r: Rates)
    ensures r.clientRate == ResolveRate(dir, ClientEntity, clientId, amount)
    ensures r.distributorRate == ResolveRate(dir, DistributorEntity, distributorId, amount)
    ensures r.companyRate == CompanyRate(dir, fileId, amount)
    ensures RatesInRange(dir) ==>
              && 0.0 <= r.clientRate <= 100.0
              && 0.0 <= r.distributorRate <= 100.0
              && 0.0 <= r.companyRate <= 100.0
  {
    Rates(ResolveRate(dir, ClientEntity, clientId, amount),
          ResolveRate(dir, DistributorEntity, distributorId, amount),
          CompanyRate(dir, fileId, amount))
  }

  /** The commission `rate` percent of `amount` earns. */
  function CommissionOf(amount: real, rate: real): (c: real)
    ensures 0.0 <= amount && 0.0 <= rate <= 100.0 ==> 0.0 <= c <= amount
    ensures rate == 0.0 ==> c == 0.0
    ensures rate == 100.0 ==> c == amount
    ensures c * 100.0 == amount * rate
  {
    if 0.0 <= amount && 0.0 <= rate <= 100.0 then
      ScaleMonotone(amount, 0.0, rate);
      ScaleMonotone(amount, rate, 100.0);
      amount * rate / 100.0
    else
      amount * rate / 100.0
  }

  /** Scaling by a non-negative factor keeps the order. */
  lemma ScaleMonotone(a: real, x: real, y: real)
    requires 0.0 <= a && x <= y
    ensures a * x <= a * y
  {
    ProductNonNegative(a, y - x);
    assert a * (y - x) == a * y - a * x;
  }

  lemma ProductNonNegative(a: real, b: real)
    requires 0.0 <= a && 0.0 <= b
    ensures 0.0 <= a * b
  {
  }

  /** The three commissions together are the sum of the rates, as a percentage of the amount. */
  lemma CommissionsAdd(amount: real, rates: Rates)
    ensures CommissionOf(amount, rates.clientRate) + CommissionOf(amount, rates.distributorRate)
              + CommissionOf(amount, rates.companyRate)
            == CommissionOf(amount, rates.clientRate + rates.distributorRate + rates.companyRate)
  {
  }

  /** The amount saved on create and update: an unparseable amount becomes 0. */
  function ParsedAmount(amount: Option<real>): (a: real)
    ensures amount.Some? ==> a == amount.value
    ensures amount.None? ==> a == 0.0
  {
    match amount
    case Some(x) => x
    case None => 0.0
  }

  /** The answer of the commission preview endpoint. */
  datatype Quote = Quote(rates: Rates, clientCommission: real, distributorCommission: real, companyCommission: real)

  /** The commission preview: rejects a missing or non-positive amount, otherwise quotes the snapshot and its commissions. */
  function Preview(dir: Directory, clientId: Id, distributorId: Id, fileId: Id, amount: Option<real>): (r: Result<Quote>)
    ensures r.Err? <==> amount.None? || amount.value <= 0.0
    ensures r.Err? ==> r.error == InvalidAmount
    ensures r.Ok? ==> r.value.rates == SnapshotRates(dir, clientId, distributorId, fileId, amount.value)
    ensures r.Ok? ==> r.value.clientCommission * 100.0 == amount.value * r.value.rates.clientRate
    ensures r.Ok? ==> r.value.distributorCommission * 100.0 == amount.value * r.value.rates.distributorRate
    ensures r.Ok? ==> r.value.companyCommission * 100.0 == amount.value * r.value.rates.companyRate
  {
    if amount.None? || amount.value <= 0.0 then
      Err(InvalidAmount)
    else
      var a := amount.value;
      var rates := SnapshotRates(dir, clientId, distributorId, fileId, a);
      Ok(Quote(rates, CommissionOf(a, rates.clientRate), CommissionOf(a, rates.distributorRate),
               CommissionOf(a, rates.companyRate)))
  }

  /** A valid preview quotes exactly the rates that saving the invoice with the same inputs freezes onto it. */
  lemma PreviewMatchesSavedRates(dir: Directory, clientId: Id, distributorId: Id, fileId: Id, amount: Option<real>)
    requires Preview(dir, clientId, distributorId, fileId, amount).Ok?
    ensures Preview(dir, clientId, distributorId, fileId, amount).value.rates
            == SnapshotRates(dir, clientId, distributorId, fileId, ParsedAmount(amount))
  {
  }

  /** Worked example: amount 1000 at default rates 5, 3 and 2 percent earns 50, 30 and 20. */
  lemma PreviewExample()
    ensures var dir := Directory((k: EntityKind, i: Id, a: real) => None,
                                 map[1 := 5.0], map[2 := 3.0], map[3 := 2.0], map[4 := Some(3)]);
            Preview(dir, 1, 2, 4, Some(1000.0)) == Ok(Quote(Rates(5.0, 3.0, 2.0), 50.0, 30.0, 20.0))
  {
  }
}
