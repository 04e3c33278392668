/** The tenant-scoped repositories over the shared database: each method is one atomic call. */
module BillingRepositories {
  import opened Outcomes
  import opened Calendar
  import opened BillingStore
  import opened FreshNames
  import opened BillingDatabase

  /** The enrollment is there, and the tenant's. */
  predicate Owns(enrollments: map<Id, Enrollment>, tenant: Id, id: Id) {
    id in enrollments && enrollments[id].tenant == tenant
  }

  /** No document but the tenant's own of this id differs, and none comes or goes. */
  predicate Patched(before: map<Id, Enrollment>, after: map<Id, Enrollment>, tenant: Id, id: Id) {
    && before.Keys == after.Keys
    && (forall o :: o in before && o != id ==> after[o] == before[o])
    && (!Owns(before, tenant, id) ==> before == after)
  }

  /** The invoice is there, and the tenant's. */
  predicate Holds(invoices: map<Id, Invoice>, tenant: Id, id: Id) {
    id in invoices && invoices[id].tenant == tenant
  }

  class EnrollmentRepository {
    const database: Database
    const tenant: Id

    constructor (database: Database, tenant: Id)
      ensures this.database == database && this.tenant == tenant
    {
      this.database, this.tenant := database, tenant;
    }

    method FindById(id: Id) returns (r: Option<Enrollment>)
      ensures r == FindEnrollment(database.Contents(), tenant, id)
    {
      if id in database.enrollments && database.enrollments[id].tenant == tenant {
        return Some(database.enrollments[id]);
      }
      return None;
    }

    method SetPeriod(id: Id, period: Period)
      modifies database`enrollments
      ensures database.Contents() == SetCurrentPeriod(old(database.Contents()), tenant, id, period)
      ensures Patched(old(database.enrollments), database.enrollments, tenant, id)
      ensures Owns(old(database.enrollments), tenant, id) ==>
                database.enrollments[id] == old(database.enrollments)[id].(currentPeriod := Some(period))
    {
      var doc := FindById(id);
      if doc.Some? {
        database.enrollments := database.enrollments[id := doc.value.(currentPeriod := Some(period))];
      }
    }

    method SetFrozen(id: Id)
      modifies database`enrollments
      ensures database.Contents() == Freeze(old(database.Contents()), tenant, id)
      ensures Patched(old(database.enrollments), database.enrollments, tenant, id)
      ensures Owns(old(database.enrollments), tenant, id) ==>
                database.enrollments[id] == old(database.enrollments)[id].(status := Frozen)
    {
      var doc := FindById(id);
      if doc.Some? {
        database.enrollments := database.enrollments[id := doc.value.(status := Frozen)];
      }
    }
  }

  class InvoiceRepository {
    const database: Database
    const tenant: Id

    constructor (database: Database, tenant: Id)
      ensures this.database == database && this.tenant == tenant
    {
      this.database, this.tenant := database, tenant;
    }

    method FindById(id: Id) returns (r: Option<Invoice>)
      ensures r == FindInvoice(database.Contents(), tenant, id)
    {
      if id in database.invoices && database.invoices[id].tenant == tenant {
        return Some(database.invoices[id]);
      }
      return None;
    }

    method FindByEnrollmentPeriod(enrollment: Id, start: Date) returns (hit: Option<Id>)
      ensures PeriodAnswer(database.Contents(), tenant, enrollment, start, hit)
    {
      var db := database.Contents();
      if id :| id in db.invoices && MatchesPeriod(db, tenant, enrollment, start, id) {
        return Some(id);
      }
      return None;
    }

    /** Insert a draft under a new id, or report that the unique index refused it. */
    method Create(bill: Bill) returns (id: Id, error: Option<StoreError>)
      modifies database`invoices
      ensures id !in old(database.invoices)
      ensures match error
              case None => CreateDraft(old(database.Contents()), tenant, id, bill) == Ok(database.Contents())
              case Some(e) => CreateDraft(old(database.Contents()), tenant, id, bill) == Err(e)
                              && database.Contents() == old(database.Contents())
      ensures error.Some? <==> PeriodTaken(old(database.Contents()), tenant, bill)
      ensures error.None? ==>
                database.invoices == old(database.invoices)[id := Invoice(tenant, bill, Draft, None, None, None, None, 0, None)]
    {
      ghost var unused := FreshId(database.invoices.Keys);
      id :| id !in database.invoices;
      match CreateDraft(database.Contents(), tenant, id, bill)
      case Err(e) => error := Some(e);
      case Ok(_) =>
        database.invoices := database.invoices[id := DraftOf(tenant, bill)];
        error := None;
    }

    /** Status, dates and number in one conditional write. */
    method Claim(id: Id, at: nat, number: Number) returns (r: Result<Option<Invoice>, StoreError>)
      modifies database`invoices
      ensures match r
              case Ok(won) => ClaimForIssue(old(database.Contents()), tenant, id, at, number) == Ok((database.Contents(), won))
              case Err(e) => ClaimForIssue(old(database.Contents()), tenant, id, at, number) == Err(e)
                             && database.Contents() == old(database.Contents())
      ensures r.Ok? && r.value.None? <==> !Holds(old(database.invoices), tenant, id) || old(database.invoices)[id].status != Draft
      ensures r.Ok? && r.value.None? ==> database.invoices == old(database.invoices)
      ensures r.Ok? && r.value.Some? ==>
                database.invoices == old(database.invoices)[id := old(database.invoices)[id].(
                  status := Open, issuedAt := Some(at), dueAt := Some(at + 14 * DAY), number := Some(number))]
    {
      var found := FindById(id);
      if found.None? || found.value.status != Draft {
        return Ok(None);
      }
      if NumberTaken(database.Contents(), tenant, number) {
        return Err(DuplicateNumber);
      }
      database.invoices := database.invoices[id := Issued(found.value, at, number)];
      return Ok(Some(database.invoices[id]));
    }

    method AdvanceStep(id: Id, fromStage: nat, at: nat) returns (stepped: Option<Invoice>)
      modifies database`invoices
      ensures (database.Contents(), stepped) == AdvanceDunningStep(old(database.Contents()), tenant, id, fromStage, at)
      ensures stepped.Some? <==> Holds(old(database.invoices), tenant, id)
                                 && old(database.invoices)[id].status == Open && old(database.invoices)[id].dunningStage == fromStage
      ensures stepped.None? ==> database.invoices == old(database.invoices)
      ensures stepped.Some? ==>
                database.invoices == old(database.invoices)[id :=
                  if fromStage < 3 then old(database.invoices)[id].(dunningStage := fromStage + 1, nextRetryAt := Some(at + 3 * DAY))
                  else old(database.invoices)[id].(status := Uncollectible, dunningStage := fromStage + 1, nextRetryAt := None)]
    {
      var found := FindById(id);
      if found.None? || found.value.status != Open || found.value.dunningStage != fromStage {
        return None;
      }
      database.invoices := database.invoices[id := Stepped(found.value, at)];
      return Some(database.invoices[id]);
    }

    method SetPaid(id: Id, at: nat)
      modifies database`invoices
      ensures database.Contents() == MarkPaid(old(database.Contents()), tenant, id, at)
      ensures database.invoices == if Holds(old(database.invoices), tenant, id)
              then old(database.invoices)[id := old(database.invoices)[id].(status := Paid, paidAt := Some(at), dunningStage := 0, nextRetryAt := None)]
              else old(database.invoices)
    {
      var found := FindById(id);
      if found.Some? {
        database.invoices := database.invoices[id := found.value.(status := Paid, paidAt := Some(at), dunningStage := 0, nextRetryAt := None)];
      }
    }
  }

  class InvoiceCounterRepository {
    const database: Database

    constructor (database: Database)
      ensures this.database == database
    {
      this.database := database;
    }

    /** `$inc` with upsert. */
    method AllocateNumber(tenant: Id, year: nat) returns (sequence: nat)
      modifies database`counters
      ensures (database.Contents(), sequence) == Allocate(old(database.Contents()), tenant, year)
      ensures sequence == (if (tenant, year) in old(database.counters) then old(database.counters)[(tenant, year)] else 0) + 1
      ensures database.counters == old(database.counters)[(tenant, year) := sequence]
    {
      sequence := 1;
      if (tenant, year) in database.counters {
        sequence := database.counters[(tenant, year)] + 1;
      }
      database.counters := database.counters[(tenant, year) := sequence];
    }
  }

  class PaymentRepository {
    const database: Database
    const tenant: Id

    constructor (database: Database, tenant: Id)
      ensures this.database == database && this.tenant == tenant
    {
      this.database, this.tenant := database, tenant;
    }

    /** The recorded attempt of this invoice with this idempotency key, if any. */
    method FindDuplicate(invoice: Id, key: string) returns (r: Option<Payment>)
      ensures r.Some? <==> (tenant, key) in database.payments && database.payments[(tenant, key)].invoice == invoice
      ensures r.Some? ==> r.value == database.payments[(tenant, key)]
    {
      if (tenant, key) in database.payments && database.payments[(tenant, key)].invoice == invoice {
        return Some(database.payments[(tenant, key)]);
      }
      return None;
    }

    method Create(key: string, payment: Payment) returns (error: Option<StoreError>)
      modifies database`payments
      ensures match error
              case None => CreatePayment(old(database.Contents()), tenant, key, payment) == Ok(database.Contents())
              case Some(e) => CreatePayment(old(database.Contents()), tenant, key, payment) == Err(e)
                              && database.Contents() == old(database.Contents())
      ensures error.Some? <==> (tenant, key) in old(database.payments)
      ensures error.None? ==> database.payments == old(database.payments)[(tenant, key) := payment]
    {
      if (tenant, key) in database.payments {
        return Some(DuplicatePaymentKey);
      }
      database.payments := database.payments[(tenant, key) := payment];
      return None;
    }
  }
}
