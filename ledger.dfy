/**
 * The payments router's process-wide `payments` Map as an object: its entries
 * and their insertion order are fields that the route handlers update in
 * place. Each method is proved against the functions of module Payments.
 */
module PaymentRoutes {
  import opened Wrappers
  import opened Json
  import opened Payments

  class Ledger {
    var payments: map<string, Payment>
    var order: seq<string>  // the keys of `payments` in insertion order

    function State(): Store
      reads this
    {
      Store(payments, order)
    }

    ghost predicate Valid()
      reads this
    {
      Consistent(State())
    }

    /** The Map as the module creates it: empty. */
    constructor ()
      ensures Valid() && State() == Empty
    {
      payments := map[];
      order := [];
    }

    /** GET /payments/:id */
    method Get(id: string) returns (r: Result<Payment, Error>, response: Response)
      requires Valid()
      ensures r.Ok? <==> id in payments
      ensures r.Ok? ==> r.value == payments[id] && r.value.id == id
      ensures r.Err? ==> r.error == NotFound(id)
      ensures response == Answer(r, 200)
      ensures response.code == 200 || response == Response(404, ErrorJson(WithId("Payment not found", id)))
    {
      r := Payments.Get(State(), id);
      response := Answer(r, 200);
    }

    /** GET /payments */
    method List(status: string, limit: Limit) returns (r: Listing, response: Response)
      requires Valid()
      ensures r == Payments.List(State(), status, limit)
      ensures response == Response(200, ListingJson(r))
    {
      r := Payments.List(State(), status, limit);
      response := Response(200, ListingJson(r));
    }

    /**
     * POST /payments. `id` is the fresh identifier `uuidv4()` would give and
     * `createdAt`, `updatedAt` the two clock readings.
     */
    method Create(amount: Option<Value>, currency: Option<Value>, description: Option<Value>,
                  recipient: Option<Value>, id: string, createdAt: string, updatedAt: string)
      returns (r: Result<Payment, Error>, response: Response)
      requires Valid() && id !in payments
      modifies this
      ensures Valid()
      ensures r == CreateOutcome(amount, currency, description, recipient, id, createdAt, updatedAt)
      ensures State() == AfterCreate(old(State()), r)
      ensures r.Err? ==> payments == old(payments) && order == old(order)
      ensures r.Ok? ==> payments == old(payments)[id := r.value] && Values(State()) == Values(old(State())) + [r.value]
      ensures response == Answer(r, 201)
    {
      r := CreateOutcome(amount, currency, description, recipient, id, createdAt, updatedAt);
      response := Answer(r, 201);
      if r.Err? {
        return;
      }
      CreateAppends(State(), r);
      payments := payments[id := r.value];
      order := order + [id];
    }

    /** PATCH /payments/:id/status; `now` is the clock reading stored as updatedAt. */
    method UpdateStatus(id: string, status: Option<Value>, now: string)
      returns (r: Result<Payment, Error>, response: Response)
      requires Valid()
      modifies this
      ensures Valid()
      ensures r == UpdateOutcome(old(State()), id, status, now)
      ensures State() == AfterUpdate(old(State()), id, r)
      ensures order == old(order) && payments.Keys == old(payments.Keys)
      ensures forall k :: k in old(payments) && k != id ==> payments[k] == old(payments[k])
      ensures response == Answer(r, 200)
    {
      var st := ParseStatus(status);
      ParseStatusExact(status);
      if st.None? {
        r := Err(InvalidStatus);
        return r, Answer(r, 200);
      }
      if id !in payments {
        r := Err(NotFound(id));
        return r, Answer(r, 200);
      }
      var payment := payments[id];
      payment := payment.(status := st.value);
      payment := payment.(updatedAt := now);
      UpdateTouchesOnlyTarget(State(), id, status, now);
      payments := payments[id := payment];
      r := Ok(payment);
      response := Answer(r, 200);
    }

    /** DELETE /payments/:id */
    method Delete(id: string) returns (r: Result<(), Error>, response: Response)
      requires Valid()
      modifies this
      ensures Valid()
      ensures r == DeleteOutcome(old(State()), id)
      ensures State() == AfterDelete(old(State()), id, r)
      ensures r.Err? ==> payments == old(payments) && order == old(order)
      ensures r.Ok? ==> id !in payments && payments == old(payments) - {id}
      ensures response == DeleteAnswer(r)
    {
      if id !in payments {
        r := Err(NotFound(id));
        return r, DeleteAnswer(r);
      }
      if payments[id].status == Completed {
        r := Err(CannotDeleteCompleted(id));
        return r, DeleteAnswer(r);
      }
      DeleteKeepsConsistent(State(), id, Ok(()));
      payments := payments - {id};
      order := Without(order, id);
      r := Ok(());
      response := DeleteAnswer(r);
    }
  }

  /** The create and list route tests: a new payment is pending, upper-cased, and listed. */
  method CreatedPaymentIsListed(id: string)
  {
    var ledger := new Ledger();
    var created, response := ledger.Create(Some(Number(100.5)), Some(String("usd")), None,
                                           Some(String("test@example.com")), id, "t0", "t0");
    assert response.code == 201;
    assert created.value.status == Pending && created.value.currency == "USD";
    var listed, _ := ledger.List("pending", Integer(1));
    assert listed.count == 1;
  }

  /**
   * The delete route test: once a payment is marked completed it can no
   * longer be deleted.
   */
  method CompletedPaymentCannotBeDeleted(id: string)
  {
    var ledger := new Ledger();
    var created, _ := ledger.Create(Some(Number(50.0)), Some(String("EUR")), None,
                                    Some(String("delete@example.com")), id, "t0", "t0");
    ParseStatusRoundTrip(Completed);
    var completed, _ := ledger.UpdateStatus(id, Some(String("completed")), "t2");
    assert completed.Ok?;
    var deleted, response := ledger.Delete(id);
    assert deleted == Err(CannotDeleteCompleted(id)) && response.code == 400;
  }
}
