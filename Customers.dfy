/**
 * CustomerService: customers of a user, unique per user by tax number, that
 * cannot be deleted while an installed device is at their site.
 */
module Customers {
  import opened Entities
  import opened Linq
  import opened Store

  /** One row of GetAll's result (GetAllCustomersWithViewModel). */
  datatype CustomerListItem = CustomerListItem(id: int, firstName: string, lastName: string, companyName: string)

  function ListItem(c: Customer): CustomerListItem
  {
    CustomerListItem(c.id, c.data.firstName, c.data.lastName, c.data.companyName)
  }

  /**
   * ValidateTaxNumber: the write is refused when a row other than `id` of
   * the same user already has the tax number.
   */
  function ValidateTaxNumber(customers: seq<Customer>, id: int, userId: int, taxNumber: string): (r: Outcome)
    ensures r == Ok || r == Fail(TaxNumberExists)
    ensures r.Fail? <==> exists c :: c in customers && c.id != id && TaxKey(c) == (userId, taxNumber)
  {
    if Any(customers, (c: Customer) => c.id != id && c.userId == userId && c.data.taxNumber == taxNumber)
    then Fail(TaxNumberExists)
    else Ok
  }

  /** FindById: the row (its position) holding customer `id`. */
  function FindById(customers: seq<Customer>, id: int): (r: Result<nat>)
    ensures r.Success? ==> r.value < |customers| && customers[r.value].id == id
    ensures r.Failure? <==> forall c :: c in customers ==> c.id != id
    ensures r.Failure? ==> r.error == InvalidCustomerId
  {
    match FirstIndex(customers, (c: Customer) => c.id == id)
    case None => Failure(InvalidCustomerId)
    case Some(i) => Success(i)
  }

  /** Get: the ten data fields of customer `id`. */
  function Get(customers: seq<Customer>, id: int): (r: Result<CustomerData>)
    ensures r.Failure? <==> forall c :: c in customers ==> c.id != id
    ensures r.Failure? ==> r.error == InvalidCustomerId
    ensures r.Success? ==> exists c :: c in customers && c.id == id && c.data == r.value
  {
    match FindById(customers, id)
    case Failure(e) => Failure(e)
    case Success(i) => Success(customers[i].data)
  }

  /** GetAll: exactly the caller's customers, projected to list rows. */
  function GetAll(customers: seq<Customer>, userId: int): (r: seq<CustomerListItem>)
    ensures forall c :: c in customers && c.userId == userId ==> ListItem(c) in r
    ensures forall item :: item in r ==> exists c :: c in customers && c.userId == userId && item == ListItem(c)
  {
    Select(Where(customers, (c: Customer) => c.userId == userId), ListItem)
  }

  /** On create the exclusion id -1 matches no row: only the user's tax numbers count. */
  lemma CreateValidationIgnoresExclusion(customers: seq<Customer>, next: int, userId: int, taxNumber: string)
    requires Keyed(customers, CustomerKey, next)
    ensures ValidateTaxNumber(customers, -1, userId, taxNumber).Fail?
        <==> exists c :: c in customers && TaxKey(c) == (userId, taxNumber)
  {
    if exists c :: c in customers && TaxKey(c) == (userId, taxNumber) {
      var c :| c in customers && TaxKey(c) == (userId, taxNumber);
      assert CustomerKey(c) > 0;
    }
  }

  /** The tax number of another user's customer never conflicts. */
  lemma TaxNumberScopedByOwner(customers: seq<Customer>, other: Customer, id: int, userId: int, taxNumber: string)
    requires other.userId != userId
    ensures ValidateTaxNumber(customers + [other], id, userId, taxNumber)
         == ValidateTaxNumber(customers, id, userId, taxNumber)
  {
    assert forall c :: c in customers + [other] && c.userId == userId ==> c in customers;
  }

  /** Re-saving a customer with its own tax number never conflicts with itself. */
  lemma UpdateNeverConflictsWithItself(customers: seq<Customer>, i: nat)
    requires DistinctBy(customers, TaxKey) && i < |customers|
    ensures ValidateTaxNumber(customers, customers[i].id, customers[i].userId, customers[i].data.taxNumber) == Ok
  {
    var me := customers[i];
    forall c | c in customers && TaxKey(c) == TaxKey(me)
      ensures c.id == me.id
    {
      DistinctKeyDetermines(customers, TaxKey, c, me);
    }
  }

  /** A validated create keeps ids and (owner, tax number) unique. */
  lemma CreateKeepsKeys(customers: seq<Customer>, next: int, userId: int, model: CustomerData)
    requires Keyed(customers, CustomerKey, next) && DistinctBy(customers, TaxKey)
    requires ValidateTaxNumber(customers, -1, userId, model.taxNumber) == Ok
    ensures Keyed(customers + [Customer(next, userId, model)], CustomerKey, next + 1)
    ensures DistinctBy(customers + [Customer(next, userId, model)], TaxKey)
  {
    var c := Customer(next, userId, model);
    DistinctByAppend(customers, CustomerKey, c);
    CreateValidationIgnoresExclusion(customers, next, userId, model.taxNumber);
    DistinctByAppend(customers, TaxKey, c);
  }

  /** A validated update keeps ids and (owner, tax number) unique. */
  lemma UpdateKeepsKeys(customers: seq<Customer>, next: int, i: nat, model: CustomerData)
    requires Keyed(customers, CustomerKey, next) && DistinctBy(customers, TaxKey) && i < |customers|
    requires ValidateTaxNumber(customers, customers[i].id, customers[i].userId, model.taxNumber) == Ok
    ensures Keyed(customers[i := customers[i].(data := model)], CustomerKey, next)
    ensures DistinctBy(customers[i := customers[i].(data := model)], TaxKey)
  {
    var c := customers[i].(data := model);
    forall j | 0 <= j < |customers| && j != i
      ensures TaxKey(customers[j]) != TaxKey(c)
    {
      assert customers[j].id != customers[i].id;
    }
    DistinctByUpdate(customers, TaxKey, i, c);
    DistinctByUpdate(customers, CustomerKey, i, c);
  }

  /** Round trip: a created customer is found under its new id with the fields given. */
  lemma GetAfterCreate(customers: seq<Customer>, next: int, userId: int, model: CustomerData)
    requires Keyed(customers, CustomerKey, next)
    ensures Get(customers + [Customer(next, userId, model)], next) == Success(model)
  {
  }

  /** Round trip: after an update, Get returns exactly the fields written. */
  lemma GetAfterUpdate(customers: seq<Customer>, i: nat, model: CustomerData)
    requires DistinctBy(customers, CustomerKey) && i < |customers|
    ensures Get(customers[i := customers[i].(data := model)], customers[i].id) == Success(model)
  {
    var updated := customers[i := customers[i].(data := model)];
    DistinctByUpdate(customers, CustomerKey, i, updated[i]);
    var j := FindById(updated, customers[i].id).value;
    DistinctKeyDetermines(updated, CustomerKey, updated[i], updated[j]);
  }

  /** Deleting an unreferenced customer leaves every device's site in place. */
  lemma DeleteKeepsDeviceSites(devices: seq<Device>, customers: seq<Customer>, i: nat)
    requires DistinctBy(customers, CustomerKey) && i < |customers|
    requires DevicesReferToCustomers(devices, customers)
    requires forall d :: d in devices ==> d.data.customerId != customers[i].id
    ensures DevicesReferToCustomers(devices, RemoveAt(customers, i))
  {
    DistinctByRemoveAt(customers, CustomerKey, i);
  }

  class CustomerService {
    const context: VendingDbContext

    constructor (context: VendingDbContext)
      ensures this.context == context
    {
      this.context := context;
    }

    /**
     * Create: refused when the caller already has a customer with this tax
     * number; otherwise appends one customer owned by the caller.
     */
    method Create(model: CustomerData, userId: int) returns (r: Outcome)
      requires context.Valid()
      modifies context`customers, context`nextCustomerId
      ensures context.Valid()
      ensures r == Ok || r == Fail(TaxNumberExists)
      ensures r.Fail? <==> exists c :: c in old(context.customers) && TaxKey(c) == (userId, model.taxNumber)
      ensures r.Fail? ==> context.customers == old(context.customers) && context.nextCustomerId == old(context.nextCustomerId)
      ensures r.Ok? ==> context.customers == old(context.customers) + [Customer(old(context.nextCustomerId), userId, model)]
      ensures r.Ok? ==> context.nextCustomerId == old(context.nextCustomerId) + 1
    {
      CreateValidationIgnoresExclusion(context.customers, context.nextCustomerId, userId, model.taxNumber);
      r := ValidateTaxNumber(context.customers, -1, userId, model.taxNumber);
      if r.Fail? {
        return;
      }
      var customer := Customer(context.nextCustomerId, userId, model);
      CreateKeepsKeys(context.customers, context.nextCustomerId, userId, model);
      context.customers := context.customers + [customer];
      context.nextCustomerId := context.nextCustomerId + 1;
    }

    /**
     * Update: refused for an unknown id, then when another customer of the
     * STORED owner has the new tax number; otherwise overwrites the ten data
     * fields, keeping id and owner.
     */
    method Update(id: int, model: CustomerData) returns (r: Outcome)
      requires context.Valid()
      modifies context`customers
      ensures context.Valid()
      ensures match FindById(old(context.customers), id)
        case Failure(_) =>
          r == Fail(InvalidCustomerId) && context.customers == old(context.customers)
        case Success(i) =>
          var before := old(context.customers);
          r == ValidateTaxNumber(before, id, before[i].userId, model.taxNumber)
          && context.customers == (if r.Ok? then before[i := before[i].(data := model)] else before)
    {
      var found := FindById(context.customers, id);
      if found.Failure? {
        return Fail(found.error);
      }
      var i := found.value;
      var customer := context.customers[i];
      r := ValidateTaxNumber(context.customers, id, customer.userId, model.taxNumber);
      if r.Fail? {
        return;
      }
      UpdateKeepsKeys(context.customers, context.nextCustomerId, i, model);
      context.customers := context.customers[i := customer.(data := model)];
    }

    /**
     * Delete: refused for an unknown id, then while a device is installed at
     * the customer's site; otherwise removes exactly that customer.
     */
    method Delete(id: int) returns (r: Outcome)
      requires context.Valid()
      modifies context`customers
      ensures context.Valid()
      ensures r == Ok || r == Fail(InvalidCustomerId) || r == Fail(CustomerInUse)
      ensures r == Fail(InvalidCustomerId) <==> FindById(old(context.customers), id).Failure?
      ensures FindById(old(context.customers), id).Success? ==>
        (r == Fail(CustomerInUse) <==> exists d :: d in context.devices && d.data.customerId == id)
      ensures r.Fail? ==> context.customers == old(context.customers)
      ensures r.Ok? ==> context.customers == RemoveAt(old(context.customers), FindById(old(context.customers), id).value)
      ensures r.Ok? ==> forall c :: c in context.customers <==> c in old(context.customers) && c.id != id
      ensures r.Ok? && DevicesReferToCustomers(context.devices, old(context.customers))
        ==> DevicesReferToCustomers(context.devices, context.customers)
    {
      var found := FindById(context.customers, id);
      if found.Failure? {
        return Fail(found.error);
      }
      var i := found.value;
      if Any(context.devices, (d: Device) => d.data.customerId == id) {
        return Fail(CustomerInUse);
      }
      DistinctByRemoveAt(context.customers, CustomerKey, i);
      DistinctByRemoveAt(context.customers, TaxKey, i);
      if DevicesReferToCustomers(context.devices, context.customers) {
        DeleteKeepsDeviceSites(context.devices, context.customers, i);
      }
      context.customers := RemoveAt(context.customers, i);
      r := Ok;
    }
  }
}
