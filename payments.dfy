/**
 * The payments resource of the Express application: the payment record, the
 * checks each route makes on its request, and the in-memory `payments` Map as
 * a value (`Store`). Every route is a pair of functions here: its outcome, and
 * the store it leaves behind. The `Ledger` class (ledger.dfy) performs the same
 * steps in place and is proved against these functions.
 */
module Payments {
  import opened Wrappers
  import opened Json

  // ------------------------------------------------------------------------
  // Statuses
  // ------------------------------------------------------------------------

  datatype Status = Pending | Processing | Completed | Failed | Cancelled

  /** The string a status is stored, listed and compared as. */
  function Name(s: Status): string {
    match s
    case Pending => "pending"
    case Processing => "processing"
    case Completed => "completed"
    case Failed => "failed"
    case Cancelled => "cancelled"
  }

  /** The route's `validStatuses` array, in its declared order. */
  const ValidStatuses: seq<Status> := [Pending, Processing, Completed, Failed, Cancelled]

  /** True when a body field is the name of one of the five statuses. */
  ghost predicate NamesAStatus(v: Option<Value>) {
    exists st: Status :: v == Some(String(Name(st)))
  }

  /**
   * `names.includes(v)`, returning the status it found. `includes` compares
   * with SameValueZero, so only a string equal to a name matches.
   */
  function Includes(names: seq<Status>, v: Option<Value>): (r: Option<Status>)
    ensures r.Some? ==> r.value in names && v == Some(String(Name(r.value)))
    ensures r.None? ==> forall st :: st in names ==> v != Some(String(Name(st)))
  {
    if names == [] then None
    else if v == Some(String(Name(names[0]))) then Some(names[0])
    else Includes(names[1..], v)
  }

  /** The status check of PATCH /payments/:id/status. */
  function ParseStatus(v: Option<Value>): Option<Status> {
    Includes(ValidStatuses, v)
  }

  lemma NameInjective(a: Status, b: Status)
    requires Name(a) == Name(b)
    ensures a == b
  {
    match a
    case Pending => assert Name(a)[0] == 'p' && Name(a)[1] == 'e';
    case Processing => assert Name(a)[0] == 'p' && Name(a)[1] == 'r';
    case Completed =>
    case Failed =>
    case Cancelled =>
  }

  /** Exactly the five status names get through, and each one parses back to its status. */
  lemma ParseStatusExact(v: Option<Value>)
    ensures ParseStatus(v).Some? <==> NamesAStatus(v)
    ensures ParseStatus(v).Some? ==> v == Some(String(Name(ParseStatus(v).value)))
  {
    if NamesAStatus(v) {
      var st: Status :| v == Some(String(Name(st)));
      assert st in ValidStatuses by { match st case _ => }
    }
  }

  lemma ParseStatusRoundTrip(st: Status)
    ensures ParseStatus(Some(String(Name(st)))) == Some(st)
  {
    ParseStatusExact(Some(String(Name(st))));
    var r := ParseStatus(Some(String(Name(st))));
    NameInjective(r.value, st);
  }

  /** `names.join(', ')` */
  function Join(names: seq<Status>): string {
    if names == [] then ""
    else if |names| == 1 then Name(names[0])
    else Name(names[0]) + ", " + Join(names[1..])
  }

  // ------------------------------------------------------------------------
  // Request fields and errors
  // ------------------------------------------------------------------------

  /** JavaScript truthiness of a body field; `None` is `undefined`. */
  predicate Truthy(v: Option<Value>) {
    match v
    case None => false
    case Some(Null) => false
    case Some(Bool(b)) => b
    case Some(Number(n)) => n != 0.0
    case Some(String(s)) => s != ""
    case Some(_) => true
  }

  /** `typeof v === 'number'` */
  predicate IsNumber(v: Option<Value>) {
    v.Some? && v.value.Number?
  }

  /** `typeof v === 'string'` */
  predicate IsString(v: Option<Value>) {
    v.Some? && v.value.String?
  }

  /** What the amount check accepts, as a caller reads it: a number above zero. */
  predicate PositiveNumber(v: Option<Value>) {
    v.Some? && v.value.Number? && v.value.n > 0.0
  }

  /** What the currency and recipient checks accept: a non-empty string. */
  predicate NonEmptyString(v: Option<Value>) {
    v.Some? && v.value.String? && v.value.s != ""
  }

  datatype Error =
    | InvalidAmount
    | InvalidCurrency
    | InvalidRecipient
    | InvalidStatus
    | NotFound(id: string)
    | CannotDeleteCompleted(id: string)

  /** The JSON body of an error response: a message, or the id it is about. */
  datatype ErrorBody =
    | WithMessage(error: string, message: string)
    | WithId(error: string, id: string)

  /** The HTTP status each error is answered with: 404 for an unknown id, 400 for every other refusal. */
  function Code(e: Error): (c: int)
    ensures c == 404 <==> e.NotFound?
    ensures c == 400 <==> !e.NotFound?
  {
    match e
    case NotFound(_) => 404
    case _ => 400
  }

  /**
   * The JSON body each error is answered with: the two refusals about a
   * particular payment carry its id, the invalid-field refusals a message.
   */
  function Body(e: Error): (b: ErrorBody)
    ensures b.WithId? <==> e.NotFound? || e.CannotDeleteCompleted?
    ensures b.WithId? ==> b.id == e.id
    ensures e.NotFound? ==> b.error == "Payment not found"
  {
    match e
    case InvalidAmount => WithMessage("Invalid amount", "Amount must be a positive number")
    case InvalidCurrency => WithMessage("Invalid currency", "Currency is required")
    case InvalidRecipient => WithMessage("Invalid recipient", "Recipient is required")
    case InvalidStatus => WithMessage("Invalid status", "Status must be one of: " + Join(ValidStatuses))
    case NotFound(id) => WithId("Payment not found", id)
    case CannotDeleteCompleted(id) => WithId("Cannot delete completed payment", id)
  }

  // ------------------------------------------------------------------------
  // The payment record
  // ------------------------------------------------------------------------

  datatype Payment = Payment(
    id: string,
    amount: real,
    currency: string,
    description: Value,
    recipient: string,
    status: Status,
    createdAt: string,
    updatedAt: string)

  /** `toUpperCase` on one character; only the ASCII letters are mapped. */
  function UpperChar(c: char): char {
    if 'a' <= c <= 'z' then (c as int - 'a' as int + 'A' as int) as char else c
  }

  function ToUpperCase(s: string): string {
    seq(|s|, i requires 0 <= i < |s| => UpperChar(s[i]))
  }

  /**
   * Upper-casing keeps the length, leaves no lower-case ASCII letter behind,
   * changes nothing but lower-case letters, and is idempotent.
   */
  lemma ToUpperCaseProperties(s: string)
    ensures |ToUpperCase(s)| == |s|
    ensures forall i :: 0 <= i < |s| ==> !('a' <= ToUpperCase(s)[i] <= 'z')
    ensures forall i :: 0 <= i < |s| && !('a' <= s[i] <= 'z') ==> ToUpperCase(s)[i] == s[i]
    ensures forall i :: 0 <= i < |s| && 'a' <= s[i] <= 'z' ==>
              ToUpperCase(s)[i] as int == s[i] as int - 32
    ensures ToUpperCase(ToUpperCase(s)) == ToUpperCase(s)
  {
  }

  lemma ToUpperCaseExample()
    ensures ToUpperCase("usd") == "USD"
  {
  }

  /** `description || ''` */
  function DescriptionOrEmpty(d: Option<Value>): (v: Value)
    ensures Truthy(d) ==> v == d.value
    ensures !Truthy(d) ==> v == String("")
    ensures Truthy(Some(v)) <==> Truthy(d)
  {
    if Truthy(d) then d.value else String("")
  }

  /**
   * POST /payments without the store: amount, then currency, then recipient
   * are checked, the first failure is the answer, and a request that passes
   * all three becomes a pending payment under the given id.
   */
  function CreateOutcome(amount: Option<Value>, currency: Option<Value>, description: Option<Value>,
                         recipient: Option<Value>, id: string, createdAt: string, updatedAt: string)
    : (r: Result<Payment, Error>)
    ensures r == Err(InvalidAmount) <==> !PositiveNumber(amount)
    ensures r == Err(InvalidCurrency) <==> PositiveNumber(amount) && !NonEmptyString(currency)
    ensures r == Err(InvalidRecipient) <==>
              PositiveNumber(amount) && NonEmptyString(currency) && !NonEmptyString(recipient)
    ensures r.Ok? <==> PositiveNumber(amount) && NonEmptyString(currency) && NonEmptyString(recipient)
    ensures r.Ok? ==>
              && r.value.id == id
              && r.value.amount == amount.value.n
              && r.value.currency == ToUpperCase(currency.value.s)
              && r.value.recipient == recipient.value.s
              && r.value.status == Pending
              && r.value.createdAt == createdAt
              && r.value.updatedAt == updatedAt
    ensures r.Ok? && Truthy(description) ==> r.value.description == description.value
    ensures r.Ok? && !Truthy(description) ==> r.value.description == String("")
  {
    if !Truthy(amount) || !IsNumber(amount) || amount.value.n <= 0.0 then
      Err(InvalidAmount)
    else if !Truthy(currency) || !IsString(currency) then
      Err(InvalidCurrency)
    else if !Truthy(recipient) || !IsString(recipient) then
      Err(InvalidRecipient)
    else
      Ok(Payment(id, amount.value.n, ToUpperCase(currency.value.s), DescriptionOrEmpty(description),
                 recipient.value.s, Pending, createdAt, updatedAt))
  }

  // ------------------------------------------------------------------------
  // The store
  // ------------------------------------------------------------------------

  /**
   * The `payments` Map: its entries, and its keys in insertion order, which is
   * the order `payments.values()` yields the entries in.
   */
  datatype Store = Store(payments: map<string, Payment>, order: seq<string>)

  const Empty: Store := Store(map[], [])

  predicate Distinct(ids: seq<string>) {
    forall i, j :: 0 <= i < j < |ids| ==> ids[i] != ids[j]
  }

  /**
   * The order lists each key exactly once, and every payment is stored under
   * its own id.
   */
  ghost predicate Consistent(s: Store) {
    && Distinct(s.order)
    && (forall id :: id in s.order <==> id in s.payments)
    && (forall id :: id in s.payments ==> s.payments[id].id == id)
  }

  /** The payments of `m` under the keys `order`, in that order. */
  function ValuesOf(order: seq<string>, m: map<string, Payment>): (r: seq<Payment>)
    requires forall id :: id in order ==> id in m
    ensures |r| == |order|
    ensures forall i :: 0 <= i < |order| ==> r[i] == m[order[i]]
  {
    if order == [] then [] else [m[order[0]]] + ValuesOf(order[1..], m)
  }

  /** `Array.from(payments.values())` */
  function Values(s: Store): seq<Payment>
    requires Consistent(s)
  {
    ValuesOf(s.order, s.payments)
  }

  /** GET /payments/:id */
  function Get(s: Store, id: string): (r: Result<Payment, Error>)
    ensures r.Ok? <==> id in s.payments
    ensures r.Ok? ==> r.value == s.payments[id]
    ensures r.Err? ==> r.error == NotFound(id) && Code(r.error) == 404
  {
    if id in s.payments then Ok(s.payments[id]) else Err(NotFound(id))
  }

  // ------------------------------------------------------------------------
  // GET /payments
  // ------------------------------------------------------------------------

  /** `ps.filter(p => p.status === status)` */
  function WithStatus(ps: seq<Payment>, status: string): (r: seq<Payment>)
    ensures |r| <= |ps|
    ensures forall p :: p in r <==> p in ps && Name(p.status) == status
  {
    if ps == [] then []
    else (if Name(ps[0].status) == status then [ps[0]] else []) + WithStatus(ps[1..], status)
  }

  /** Filtering keeps the relative order: it distributes over concatenation. */
  lemma {:induction false} WithStatusAppend(a: seq<Payment>, b: seq<Payment>, status: string)
    ensures WithStatus(a + b, status) == WithStatus(a, status) + WithStatus(b, status)
  {
    if a == [] {
      assert a + b == b;
    } else {
      var ab := a + b;
      assert ab[0] == a[0];
      assert ab[1..] == a[1..] + b;
      WithStatusAppend(a[1..], b, status);
    }
  }

  function Min(a: int, b: int): int {
    if a < b then a else b
  }

  function Max(a: int, b: int): int {
    if a < b then b else a
  }

  /**
   * Where `slice(0, end)` stops on an array of length `len`: `None` is NaN,
   * which `slice` reads as 0, a negative end counts back from the tail, and
   * the result is clamped to the array.
   */
  function SliceEnd(len: nat, end: Option<int>): (k: nat)
    ensures k <= len
    ensures end.None? ==> k == 0
    ensures end.Some? && 0 <= end.value ==> k == Min(end.value, len)
    ensures end.Some? && end.value < 0 ==> k == Max(len + end.value, 0)
    ensures end.Some? && len + end.value <= 0 ==> k == 0
  {
    match end
    case None => 0
    case Some(e) => if e < 0 then Max(len + e, 0) else Min(e, len)
  }

  /** The payments GET /payments considers before the limit: all, or those with the status. */
  function Candidates(s: Store, status: string): seq<Payment>
    requires Consistent(s)
  {
    if status != "" then WithStatus(Values(s), status) else Values(s)
  }

  datatype Listing = Listing(count: nat, payments: seq<Payment>)

  /**
   * The `limit` query parameter: absent, when the default 10 applies, or what
   * `parseInt(limit, 10)` gives for the text sent, an integer or NaN.
   */
  datatype Limit = Unset | Integer(n: int) | NotANumber

  /** The end `slice` receives: `parseInt(limit, 10)` with `limit = 10` as the default; `None` is NaN. */
  function SliceArgument(limit: Limit): Option<int> {
    match limit
    case Unset => Some(10)
    case Integer(n) => Some(n)
    case NotANumber => None
  }

  /**
   * GET /payments?status=&limit=. `status` is the query string value ("" when
   * absent).
   */
  function List(s: Store, status: string, limit: Limit): (r: Listing)
    requires Consistent(s)
    ensures r.count == |r.payments|
    ensures forall p :: p in r.payments ==> p.id in s.payments && s.payments[p.id] == p
    ensures status != "" ==> forall p :: p in r.payments ==> Name(p.status) == status
    ensures |r.payments| <= |Candidates(s, status)|
    ensures r.payments == Candidates(s, status)[..|r.payments|]
    ensures limit.Unset? ==> |r.payments| == Min(10, |Candidates(s, status)|)
    ensures limit.Integer? && limit.n >= 0 ==>
              |r.payments| == Min(limit.n, |Candidates(s, status)|)
    ensures limit.Integer? && limit.n < 0 ==>
              |r.payments| == Max(|Candidates(s, status)| + limit.n, 0)
    ensures limit.NotANumber? ==> r.payments == []
  {
    var c := Candidates(s, status);
    var page := c[..SliceEnd(|c|, SliceArgument(limit))];
    assert forall p :: p in page ==> p in Values(s);
    Listing(|page|, page)
  }

  // ------------------------------------------------------------------------
  // POST /payments
  // ------------------------------------------------------------------------

  /** `payments.set(payment.id, payment)` when the create succeeded; a Map keeps a key's first position. */
  function AfterCreate(s: Store, r: Result<Payment, Error>): (s': Store)
    ensures r.Err? ==> s' == s
    ensures r.Ok? ==> s'.payments == s.payments[r.value.id := r.value]
    ensures s.order <= s'.order
    ensures r.Ok? && r.value.id !in s.payments ==> s'.order == s.order + [r.value.id]
    ensures r.Ok? && r.value.id in s.payments ==> s'.order == s.order
  {
    if r.Err? then s
    else if r.value.id in s.payments then Store(s.payments[r.value.id := r.value], s.order)
    else Store(s.payments[r.value.id := r.value], s.order + [r.value.id])
  }

  lemma CreateKeepsConsistent(s: Store, r: Result<Payment, Error>)
    requires Consistent(s)
    ensures Consistent(AfterCreate(s, r))
  {
  }

  /**
   * A successful create under a fresh id adds exactly that payment, last in
   * the listing order, and changes no other entry.
   */
  lemma CreateAppends(s: Store, r: Result<Payment, Error>)
    requires Consistent(s) && r.Ok? && r.value.id !in s.payments
    ensures AfterCreate(s, r).payments.Keys == s.payments.Keys + {r.value.id}
    ensures forall id :: id in s.payments ==> AfterCreate(s, r).payments[id] == s.payments[id]
    ensures Values(AfterCreate(s, r)) == Values(s) + [r.value]
  {
    CreateKeepsConsistent(s, r);
    ValuesOfAppend(s.order, s.payments, r.value.id, r.value);
  }

  /** Setting a fresh key appends its value to the values listed under the old keys. */
  lemma ValuesOfAppend(order: seq<string>, m: map<string, Payment>, id: string, p: Payment)
    requires forall k :: k in order ==> k in m
    requires id !in order
    ensures ValuesOf(order + [id], m[id := p]) == ValuesOf(order, m) + [p]
  {
    var vs, vs' := ValuesOf(order, m), ValuesOf(order + [id], m[id := p]);
    assert forall i :: 0 <= i < |order| ==> (order + [id])[i] == order[i] != id;
    assert forall i :: 0 <= i < |order| ==> vs'[i] == vs[i];
    assert vs' == vs + [p];
  }

  /**
   * The new payment is pending, so among the payments GET /payments slices it
   * comes last when there is no status filter or the filter is "pending", and
   * it appears under no other filter.
   */
  lemma CreatedPaymentListedLast(s: Store, r: Result<Payment, Error>, status: string)
    requires Consistent(s) && r.Ok? && r.value.id !in s.payments && r.value.status == Pending
    ensures Candidates(AfterCreate(s, r), status) ==
              Candidates(s, status) + (if status == "" || status == "pending" then [r.value] else [])
  {
    CreateAppends(s, r);
    if status != "" {
      WithStatusAppend(Values(s), [r.value], status);
    }
  }

  // ------------------------------------------------------------------------
  // PATCH /payments/:id/status
  // ------------------------------------------------------------------------

  /** The status is checked against the five names first; only then is the id looked up. */
  function UpdateOutcome(s: Store, id: string, status: Option<Value>, now: string)
    : (r: Result<Payment, Error>)
    ensures r == Err(InvalidStatus) <==> !NamesAStatus(status)
    ensures r == Err(NotFound(id)) <==> NamesAStatus(status) && id !in s.payments
    ensures r.Ok? <==> NamesAStatus(status) && id in s.payments
    ensures r.Ok? ==> status == Some(String(Name(r.value.status)))
    ensures r.Ok? ==> r.value == s.payments[id].(status := r.value.status, updatedAt := now)
  {
    ParseStatusExact(status);
    match ParseStatus(status)
    case None => Err(InvalidStatus)
    case Some(st) =>
      if id !in s.payments then Err(NotFound(id))
      else Ok(s.payments[id].(status := st, updatedAt := now))
  }

  /** `payment.status = status; payment.updatedAt = ...` on the record the Map holds. */
  function AfterUpdate(s: Store, id: string, r: Result<Payment, Error>): (s': Store)
    ensures r.Err? ==> s' == s
    ensures s'.order == s.order
    ensures r.Ok? ==> s'.payments == s.payments[id := r.value]
  {
    if r.Ok? then Store(s.payments[id := r.value], s.order) else s
  }

  /**
   * A status update keeps the store consistent and touches only the target's
   * status and updatedAt: every other payment, the keys and their order stay.
   */
  lemma UpdateTouchesOnlyTarget(s: Store, id: string, status: Option<Value>, now: string)
    requires Consistent(s)
    ensures var r := UpdateOutcome(s, id, status, now);
            var s' := AfterUpdate(s, id, r);
            && Consistent(s')
            && s'.order == s.order
            && s'.payments.Keys == s.payments.Keys
            && (forall k :: k in s.payments && k != id ==> s'.payments[k] == s.payments[k])
            && (r.Ok? ==> s'.payments[id] == s.payments[id].(status := r.value.status, updatedAt := now))
            && |Values(s')| == |Values(s)|
  {
  }

  /** A status value outside the five is refused even for a stored payment, and nothing changes. */
  lemma InvalidStatusBeforeNotFound(s: Store, id: string, status: Option<Value>, now: string)
    requires id in s.payments && !NamesAStatus(status)
    ensures UpdateOutcome(s, id, status, now) == Err(InvalidStatus)
    ensures AfterUpdate(s, id, UpdateOutcome(s, id, status, now)) == s
  {
  }

  // ------------------------------------------------------------------------
  // DELETE /payments/:id
  // ------------------------------------------------------------------------

  function DeleteOutcome(s: Store, id: string): (r: Result<(), Error>)
    ensures id !in s.payments ==> r == Err(NotFound(id))
    ensures id in s.payments && s.payments[id].status == Completed ==> r == Err(CannotDeleteCompleted(id))
    ensures r.Ok? <==> id in s.payments && s.payments[id].status != Completed
  {
    if id !in s.payments then Err(NotFound(id))
    else if s.payments[id].status == Completed then Err(CannotDeleteCompleted(id))
    else Ok(())
  }

  /** `ids` without `id`, in the same order. */
  function Without(ids: seq<string>, id: string): (r: seq<string>)
    ensures forall x :: x in r <==> x in ids && x != id
  {
    if ids == [] then []
    else (if ids[0] == id then [] else [ids[0]]) + Without(ids[1..], id)
  }

  lemma {:induction false} WithoutKeepsDistinct(ids: seq<string>, id: string)
    requires Distinct(ids)
    ensures Distinct(Without(ids, id))
  {
    if ids != [] {
      WithoutKeepsDistinct(ids[1..], id);
      assert ids[0] !in ids[1..];
    }
  }

  /** `payments.delete(id)` when the delete was allowed. */
  function AfterDelete(s: Store, id: string, r: Result<(), Error>): (s': Store)
    ensures r.Err? ==> s' == s
    ensures r.Ok? ==> s'.payments == s.payments - {id}
    ensures r.Ok? ==> forall k :: k in s'.order <==> k in s.order && k != id
  {
    if r.Ok? then Store(s.payments - {id}, Without(s.order, id)) else s
  }

  /** The payments of `ps` other than the one with id `id`, in the same order. */
  function OmitId(ps: seq<Payment>, id: string): (r: seq<Payment>)
    ensures forall p :: p in r <==> p in ps && p.id != id
  {
    if ps == [] then []
    else (if ps[0].id == id then [] else [ps[0]]) + OmitId(ps[1..], id)
  }

  lemma {:induction false} ValuesOfWithout(order: seq<string>, m: map<string, Payment>, id: string)
    requires forall k :: k in order ==> k in m && m[k].id == k
    ensures forall k :: k in Without(order, id) ==> k in m - {id}
    ensures ValuesOf(Without(order, id), m - {id}) == OmitId(ValuesOf(order, m), id)
  {
    if order != [] {
      var x, rest, m' := order[0], order[1..], m - {id};
      ValuesOfWithout(rest, m, id);
      var vs := ValuesOf(order, m);
      assert vs == [m[x]] + ValuesOf(rest, m);
      assert vs[0] == m[x] && vs[1..] == ValuesOf(rest, m);
      assert OmitId(vs, id) == (if m[x].id == id then [] else [m[x]]) + OmitId(ValuesOf(rest, m), id);
      if x == id {
        assert Without(order, id) == Without(rest, id);
      } else {
        var w := Without(rest, id);
        assert Without(order, id) == [x] + w;
        assert ([x] + w)[0] == x && ([x] + w)[1..] == w;
        assert ValuesOf([x] + w, m') == [m'[x]] + ValuesOf(w, m');
      }
    }
  }

  /**
   * An allowed delete removes exactly that payment: a later get is not-found,
   * every other entry stays, and the listing loses only that payment, in the
   * same order otherwise.
   */
  lemma DeleteRemovesOnlyTarget(s: Store, id: string)
    requires Consistent(s) && DeleteOutcome(s, id).Ok?
    ensures var s' := AfterDelete(s, id, DeleteOutcome(s, id));
            && Consistent(s')
            && Get(s', id) == Err(NotFound(id))
            && s'.payments.Keys == s.payments.Keys - {id}
            && (forall k :: k in s'.payments ==> s'.payments[k] == s.payments[k])
            && Values(s') == OmitId(Values(s), id)
  {
    WithoutKeepsDistinct(s.order, id);
    ValuesOfWithout(s.order, s.payments, id);
  }

  lemma DeleteKeepsConsistent(s: Store, id: string, r: Result<(), Error>)
    requires Consistent(s)
    ensures Consistent(AfterDelete(s, id, r))
  {
    WithoutKeepsDistinct(s.order, id);
  }

  /** A completed payment is never deleted: the request is refused and the store stays as it was. */
  lemma CompletedIsNeverDeleted(s: Store, id: string)
    requires id in s.payments && s.payments[id].status == Completed
    ensures DeleteOutcome(s, id) == Err(CannotDeleteCompleted(id))
    ensures AfterDelete(s, id, DeleteOutcome(s, id)) == s
  {
  }

  // ------------------------------------------------------------------------
  // Responses
  // ------------------------------------------------------------------------

  /** What a route sends back: a payment, a listing, an error body, or nothing. */
  datatype ResponseBody =
    | PaymentJson(payment: Payment)
    | ListingJson(listing: Listing)
    | ErrorJson(error: ErrorBody)
    | NoContent

  datatype Response = Response(code: int, body: ResponseBody)

  /**
   * How the get, create and status routes answer: a payment with the route's
   * success status (200, or 201 for a create), an error with its own status
   * and body.
   */
  function Answer(r: Result<Payment, Error>, success: int): (resp: Response)
    requires success == 200 || success == 201
    ensures resp.code == success <==> r.Ok?
    ensures r.Ok? ==> resp.body == PaymentJson(r.value)
    ensures r.Err? ==> resp.code == Code(r.error) && resp.body == ErrorJson(Body(r.error))
  {
    match r
    case Ok(p) => Response(success, PaymentJson(p))
    case Err(e) => Response(Code(e), ErrorJson(Body(e)))
  }

  /** How the delete route answers: 204 with no body, or the error. */
  function DeleteAnswer(r: Result<(), Error>): (resp: Response)
    ensures resp.code == 204 <==> r.Ok?
    ensures r.Ok? ==> resp.body == NoContent
    ensures r.Err? ==> resp.code == Code(r.error) && resp.body == ErrorJson(Body(r.error))
  {
    match r
    case Ok(_) => Response(204, NoContent)
    case Err(e) => Response(Code(e), ErrorJson(Body(e)))
  }

  // ------------------------------------------------------------------------
  // Sequences of requests
  // ------------------------------------------------------------------------

  /** The requests that change the store. */
  datatype Request =
    | PostPayment(amount: Option<Value>, currency: Option<Value>, description: Option<Value>,
                  recipient: Option<Value>, id: string, createdAt: string, updatedAt: string)
    | PatchStatus(id: string, status: Option<Value>, now: string)
    | DeletePayment(id: string)

  function Apply(s: Store, req: Request): Store {
    match req
    case PostPayment(amount, currency, description, recipient, id, createdAt, updatedAt) =>
      AfterCreate(s, CreateOutcome(amount, currency, description, recipient, id, createdAt, updatedAt))
    case PatchStatus(id, status, now) =>
      AfterUpdate(s, id, UpdateOutcome(s, id, status, now))
    case DeletePayment(id) =>
      AfterDelete(s, id, DeleteOutcome(s, id))
  }

  /** The store after serving `reqs` one at a time, in order. */
  function Run(s: Store, reqs: seq<Request>): Store
    decreases |reqs|
  {
    if reqs == [] then s else Run(Apply(s, reqs[0]), reqs[1..])
  }

  /** Every request keeps the store consistent, so any run does. */
  lemma {:induction false} RunKeepsConsistent(s: Store, reqs: seq<Request>)
    requires Consistent(s)
    ensures Consistent(Run(s, reqs))
    decreases |reqs|
  {
    if reqs != [] {
      match reqs[0] {
        case PostPayment(amount, currency, description, recipient, id, createdAt, updatedAt) =>
          CreateKeepsConsistent(s, CreateOutcome(amount, currency, description, recipient, id, createdAt, updatedAt));
        case PatchStatus(id, status, now) =>
          UpdateTouchesOnlyTarget(s, id, status, now);
        case DeletePayment(id) =>
          DeleteKeepsConsistent(s, id, DeleteOutcome(s, id));
      }
      RunKeepsConsistent(Apply(s, reqs[0]), reqs[1..]);
    }
  }

  /**
   * Once completed, a payment stays in the store, unchanged, through any
   * requests that do not change its own status: deletes of it are refused,
   * and so are status updates of it whose value names no status; creates
   * under other ids and updates of other payments leave it alone.
   */
  lemma {:induction false} CompletedPaymentPersists(s: Store, reqs: seq<Request>, id: string)
    requires id in s.payments && s.payments[id].status == Completed
    requires forall k :: 0 <= k < |reqs| && reqs[k].id == id ==>
               reqs[k].DeletePayment? || (reqs[k].PatchStatus? && !NamesAStatus(reqs[k].status))
    ensures id in Run(s, reqs).payments && Run(s, reqs).payments[id] == s.payments[id]
    decreases |reqs|
  {
    if reqs != [] {
      if reqs[0].PatchStatus? {
        ParseStatusExact(reqs[0].status);
      }
      var s' := Apply(s, reqs[0]);
      assert id in s'.payments && s'.payments[id] == s.payments[id];
      forall k | 0 <= k < |reqs[1..]| && reqs[1..][k].id == id
        ensures reqs[1..][k].DeletePayment? || (reqs[1..][k].PatchStatus? && !NamesAStatus(reqs[1..][k].status))
      {
        assert reqs[1..][k] == reqs[k + 1];
      }
      CompletedPaymentPersists(s', reqs[1..], id);
    }
  }
}
