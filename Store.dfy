/**
 * The database context the services share: six tables in storage order and
 * the identity counter of each (an auto-increment column hands out ids that
 * are never reused). `Valid` is the store-level invariant that the service
 * operations keep:
 *  - ids are distinct, positive and below their counter, so the exclusion id
 *    -1 that the create paths pass to the validators never matches a row;
 *  - (owner, tax number) is unique among customers and (owner, PLU) among
 *    products;
 *  - each device serial is unique across all owners;
 *  - every transaction links an existing device and an existing product of
 *    the same owner.
 * The database's own unique index on devices is on the PAIR of serials,
 * which is weaker than the two per-field checks the device service makes;
 * the invariant here is the one those checks establish.
 */
module Store {
  import opened Entities
  import opened Linq

  /** An identity column: distinct positive ids below the next one to hand out. */
  ghost predicate Keyed<T>(s: seq<T>, key: T -> int, next: int)
  {
    && DistinctBy(s, key)
    && 0 < next
    && forall x :: x in s ==> 0 < key(x) < next
  }

  /** The transaction's device and product are rows of their tables and have one owner. */
  ghost predicate Linked(t: Transaction, devices: seq<Device>, products: seq<VendingProduct>)
  {
    exists d :: d in devices && d.id == t.deviceId && ProductOwnedBy(products, t.vendingProductId, d.userId)
  }

  ghost predicate ProductOwnedBy(products: seq<VendingProduct>, productId: int, userId: int)
  {
    exists p :: p in products && p.id == productId && p.userId == userId
  }

  ghost predicate TransactionsLinked(transactions: seq<Transaction>, devices: seq<Device>, products: seq<VendingProduct>)
  {
    forall t :: t in transactions ==> Linked(t, devices, products)
  }

  /**
   * Sales stay linked through a write to the products table that keeps, with
   * its id and owner, every product some transaction sold.
   */
  lemma ProductsKeptForSales(transactions: seq<Transaction>, devices: seq<Device>,
                             products: seq<VendingProduct>, products': seq<VendingProduct>)
    requires TransactionsLinked(transactions, devices, products)
    requires forall t, p :: t in transactions && p in products && p.id == t.vendingProductId
               ==> p in products' || exists q :: q in products' && q.id == p.id && q.userId == p.userId
    ensures TransactionsLinked(transactions, devices, products')
  {
    forall t | t in transactions
      ensures Linked(t, devices, products')
    {
      var d :| d in devices && d.id == t.deviceId && ProductOwnedBy(products, t.vendingProductId, d.userId);
      var p :| p in products && p.id == t.vendingProductId && p.userId == d.userId;
      if p !in products' {
        var q :| q in products' && q.id == p.id && q.userId == p.userId;
      }
      assert ProductOwnedBy(products', t.vendingProductId, d.userId);
    }
  }

  /**
   * Sales stay linked through a write to the devices table that keeps, with
   * its id and owner, every device some transaction was made on.
   */
  lemma DevicesKeptForSales(transactions: seq<Transaction>, devices: seq<Device>,
                            devices': seq<Device>, products: seq<VendingProduct>)
    requires TransactionsLinked(transactions, devices, products)
    requires forall t, d :: t in transactions && d in devices && d.id == t.deviceId
               ==> d in devices' || exists e :: e in devices' && e.id == d.id && e.userId == d.userId
    ensures TransactionsLinked(transactions, devices', products)
  {
    forall t | t in transactions
      ensures Linked(t, devices', products)
    {
      var d :| d in devices && d.id == t.deviceId && ProductOwnedBy(products, t.vendingProductId, d.userId);
      if d !in devices' {
        var e :| e in devices' && e.id == d.id && e.userId == d.userId;
        assert e.id == t.deviceId && ProductOwnedBy(products, t.vendingProductId, e.userId);
      }
    }
  }

  // The foreign keys of a device. The services do not check them when a
  // device is written (the database does); the delete guards keep them.

  ghost predicate DevicesReferToCustomers(devices: seq<Device>, customers: seq<Customer>)
  {
    forall d :: d in devices ==> exists c :: c in customers && c.id == d.data.customerId
  }

  ghost predicate DevicesReferToPaymentDevices(devices: seq<Device>, paymentDevices: seq<PaymentDevice>)
  {
    forall d :: d in devices ==> exists p :: p in paymentDevices && p.id == d.data.paymentDeviceId
  }

  ghost predicate DevicesReferToVendingDevices(devices: seq<Device>, vendingDevices: seq<VendingDevice>)
  {
    forall d :: d in devices ==> exists v :: v in vendingDevices && v.id == d.data.vendingDeviceId
  }

  class VendingDbContext {
    var customers: seq<Customer>
    var paymentDevices: seq<PaymentDevice>
    var vendingDevices: seq<VendingDevice>
    var vendingProducts: seq<VendingProduct>
    var devices: seq<Device>
    var transactions: seq<Transaction>

    var nextCustomerId: int
    var nextPaymentDeviceId: int
    var nextVendingDeviceId: int
    var nextVendingProductId: int
    var nextDeviceId: int
    var nextTransactionId: int

    ghost predicate Valid()
      reads this
    {
      && Keyed(customers, CustomerKey, nextCustomerId)
      && Keyed(paymentDevices, PaymentDeviceKey, nextPaymentDeviceId)
      && Keyed(vendingDevices, VendingDeviceKey, nextVendingDeviceId)
      && Keyed(vendingProducts, VendingProductKey, nextVendingProductId)
      && Keyed(devices, DeviceKey, nextDeviceId)
      && Keyed(transactions, TransactionKey, nextTransactionId)
      && DistinctBy(customers, TaxKey)
      && DistinctBy(vendingProducts, PluKey)
      && DistinctBy(devices, PaymentSerialKey)
      && DistinctBy(devices, VendingSerialKey)
      && TransactionsLinked(transactions, devices, vendingProducts)
    }

    /** An empty database whose identity columns start at 1. */
    constructor ()
      ensures Valid()
      ensures customers == [] && paymentDevices == [] && vendingDevices == []
      ensures vendingProducts == [] && devices == [] && transactions == []
    {
      customers, paymentDevices, vendingDevices := [], [], [];
      vendingProducts, devices, transactions := [], [], [];
      nextCustomerId, nextPaymentDeviceId, nextVendingDeviceId := 1, 1, 1;
      nextVendingProductId, nextDeviceId, nextTransactionId := 1, 1, 1;
    }
  }
}
