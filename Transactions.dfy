/**
 * TransactionService: sales reported by the payment terminals. A sale names
 * a payment-device serial and a product PLU; the serial is resolved to an
 * installed device, the PLU is resolved among the products of THAT device's
 * owner, and the sale is stored linked to both. Listing is by the owner of
 * the sale's device.
 */
module Transactions {
  import opened Entities
  import opened Linq
  import opened Store

  /** CreateTransactionModel: what a terminal reports for one sale. */
  datatype CreateTransactionModel = CreateTransactionModel(
    paymentType: string, amount: real, itemNumber: string,
    currencyCode: string, serialNumber: string, createdAt: int)

  /** Get's result (GetTransactionModel, without its display strings): the fields Get fills in. */
  datatype TransactionDetails = TransactionDetails(amount: real, currency: string, createdAt: int, paymentType: string)

  /** One row of GetAll's result (GetAllTransactionWithViewModel, without its display strings). */
  datatype TransactionListItem = TransactionListItem(id: int, amount: real, currency: string)

  function ListItem(t: Transaction): TransactionListItem
  {
    TransactionListItem(t.id, t.amount, t.currency)
  }

  /** The first device whose payment-device serial is `serial`; unknown serials are refused. */
  function ResolveDevice(devices: seq<Device>, serial: string): (r: Result<Device>)
    ensures r.Failure? <==> forall d :: d in devices ==> PaymentSerialKey(d) != serial
    ensures r.Failure? ==> r.error == InvalidSerialNumber
    ensures r.Success? ==> r.value in devices && PaymentSerialKey(r.value) == serial
    ensures r.Success? ==> exists i :: 0 <= i < |devices| && devices[i] == r.value
                                       && forall j :: 0 <= j < i ==> PaymentSerialKey(devices[j]) != serial
  {
    match FirstOrDefault(devices, (d: Device) => d.data.paymentDeviceSerial == serial)
    case None => Failure(InvalidSerialNumber)
    case Some(d) => Success(d)
  }

  /** The first product of `owner` whose PLU is `plu`; a PLU the owner lacks is refused. */
  function ResolveProduct(products: seq<VendingProduct>, plu: string, owner: int): (r: Result<VendingProduct>)
    ensures r.Failure? <==> forall p :: p in products ==> PluKey(p) != (owner, plu)
    ensures r.Failure? ==> r.error == InvalidProductPlu
    ensures r.Success? ==> r.value in products && PluKey(r.value) == (owner, plu)
    ensures r.Success? ==> exists i :: 0 <= i < |products| && products[i] == r.value
                                       && forall j :: 0 <= j < i ==> PluKey(products[j]) != (owner, plu)
  {
    match FirstOrDefault(products, (p: VendingProduct) => p.data.plu == plu && p.userId == owner)
    case None => Failure(InvalidProductPlu)
    case Some(p) => Success(p)
  }

  /** FindById: the row (its position) holding transaction `id`. */
  function FindById(transactions: seq<Transaction>, id: int): (r: Result<nat>)
    ensures r.Success? ==> r.value < |transactions| && transactions[r.value].id == id
    ensures r.Failure? <==> forall t :: t in transactions ==> t.id != id
    ensures r.Failure? ==> r.error == InvalidTransactionId
  {
    match FirstIndex(transactions, (t: Transaction) => t.id == id)
    case None => Failure(InvalidTransactionId)
    case Some(i) => Success(i)
  }

  /** The device row a sale was made on, looked up by id. */
  function DeviceOf(devices: seq<Device>, t: Transaction): (r: Option<Device>)
    ensures r.None? <==> forall d :: d in devices ==> d.id != t.deviceId
    ensures r.Some? ==> r.value in devices && r.value.id == t.deviceId
  {
    FirstOrDefault(devices, (d: Device) => d.id == t.deviceId)
  }

  /**
   * Get: transaction `id`'s amount, currency, time and payment type; refused
   * for an unknown id, then when its device, then its product, is missing.
   */
  function Get(transactions: seq<Transaction>, devices: seq<Device>, products: seq<VendingProduct>, id: int)
    : (r: Result<TransactionDetails>)
    ensures match FindById(transactions, id)
      case Failure(_) => r == Failure(InvalidTransactionId)
      case Success(i) =>
        var t := transactions[i];
        && (r.Success? || r == Failure(InvalidDeviceId) || r == Failure(InvalidVendingProductId))
        && (r == Failure(InvalidDeviceId) <==> forall d :: d in devices ==> d.id != t.deviceId)
        && (r == Failure(InvalidVendingProductId)
            <==> (exists d :: d in devices && d.id == t.deviceId)
                 && forall p :: p in products ==> p.id != t.vendingProductId)
        && (r.Success? ==> r.value == TransactionDetails(t.amount, t.currency, t.createdAt, t.paymentType))
  {
    match FindById(transactions, id)
    case Failure(e) => Failure(e)
    case Success(i) =>
      var t := transactions[i];
      if DeviceOf(devices, t).None? then Failure(InvalidDeviceId)
      else if !Any(products, (p: VendingProduct) => p.id == t.vendingProductId) then Failure(InvalidVendingProductId)
      else Success(TransactionDetails(t.amount, t.currency, t.createdAt, t.paymentType))
  }

  /** GetAll: the sales whose device belongs to the caller, projected to list rows. */
  function GetAll(transactions: seq<Transaction>, devices: seq<Device>, userId: int): (r: seq<TransactionListItem>)
    ensures forall t :: t in transactions && DeviceOf(devices, t).Some? && DeviceOf(devices, t).value.userId == userId
              ==> ListItem(t) in r
    ensures forall item :: item in r ==> exists t :: t in transactions && DeviceOf(devices, t).Some?
                                                   && DeviceOf(devices, t).value.userId == userId && item == ListItem(t)
  {
    Select(Where(transactions, (t: Transaction) => DeviceOf(devices, t).Some? && DeviceOf(devices, t).value.userId == userId),
           ListItem)
  }

  /** A stored sale can always be read back: its device and product exist. */
  lemma GetSucceedsWhenLinked(transactions: seq<Transaction>, devices: seq<Device>, products: seq<VendingProduct>,
                              t: Transaction)
    requires TransactionsLinked(transactions, devices, products) && DistinctBy(transactions, TransactionKey)
    requires t in transactions
    ensures Get(transactions, devices, products, t.id)
         == Success(TransactionDetails(t.amount, t.currency, t.createdAt, t.paymentType))
  {
    var i := FindById(transactions, t.id).value;
    DistinctKeyDetermines(transactions, TransactionKey, t, transactions[i]);
    assert Linked(t, devices, products);
  }

  /**
   * Under unique payment serials the sale goes to THE device with the
   * serial, whichever row order the table has.
   */
  lemma ResolvedDeviceIsTheSerialsDevice(devices: seq<Device>, d: Device)
    requires DistinctBy(devices, PaymentSerialKey) && d in devices
    ensures ResolveDevice(devices, d.data.paymentDeviceSerial) == Success(d)
  {
    var r := ResolveDevice(devices, d.data.paymentDeviceSerial);
    DistinctKeyDetermines(devices, PaymentSerialKey, r.value, d);
  }

  /** Under unique (owner, PLU) the sale goes to THE owner's product with the PLU. */
  lemma ResolvedProductIsTheOwnersProduct(products: seq<VendingProduct>, p: VendingProduct)
    requires DistinctBy(products, PluKey) && p in products
    ensures ResolveProduct(products, p.data.plu, p.userId) == Success(p)
  {
    var r := ResolveProduct(products, p.data.plu, p.userId);
    DistinctKeyDetermines(products, PluKey, r.value, p);
  }

  /**
   * The product is looked up among the device owner's products only: a PLU
   * that only other owners have is refused, and another owner's product with
   * the PLU never changes which product is chosen.
   */
  lemma ProductScopedByDeviceOwner(products: seq<VendingProduct>, other: VendingProduct, plu: string, owner: int)
    requires other.userId != owner
    ensures ResolveProduct(products + [other], plu, owner) == ResolveProduct(products, plu, owner)
  {
    var r := ResolveProduct(products + [other], plu, owner);
    var r' := ResolveProduct(products, plu, owner);
    if r.Success? {
      var i :| 0 <= i < |products + [other]| && (products + [other])[i] == r.value
               && forall j :: 0 <= j < i ==> PluKey((products + [other])[j]) != (owner, plu);
      assert i < |products|;
      if r'.Success? {
        var i' :| 0 <= i' < |products| && products[i'] == r'.value
                  && forall j :: 0 <= j < i' ==> PluKey(products[j]) != (owner, plu);
        assert (products + [other])[i'] == products[i'];
        assert products[i] == (products + [other])[i];
        assert i == i';
      } else {
        assert products[i] in products;
      }
    } else if r'.Success? {
      assert r'.value in products + [other];
    }
  }

  /**
   * Tenant isolation: with device ids unique, the caller sees exactly the
   * sales made on the caller's own devices.
   */
  lemma GetAllListsExactlyOwnSales(transactions: seq<Transaction>, devices: seq<Device>, userId: int)
    requires DistinctBy(devices, DeviceKey)
    ensures forall t, d :: t in transactions && d in devices && d.id == t.deviceId && d.userId == userId
              ==> ListItem(t) in GetAll(transactions, devices, userId)
    ensures forall item :: item in GetAll(transactions, devices, userId)
              ==> exists t, d :: t in transactions && d in devices && d.id == t.deviceId && d.userId == userId
                                 && item == ListItem(t)
  {
    forall t, d | t in transactions && d in devices && d.id == t.deviceId && d.userId == userId
      ensures ListItem(t) in GetAll(transactions, devices, userId)
    {
      DistinctKeyDetermines(devices, DeviceKey, d, DeviceOf(devices, t).value);
    }
    forall item | item in GetAll(transactions, devices, userId)
      ensures exists t, d :: t in transactions && d in devices && d.id == t.deviceId && d.userId == userId
                             && item == ListItem(t)
    {
      var t :| t in transactions && DeviceOf(devices, t).Some?
               && DeviceOf(devices, t).value.userId == userId && item == ListItem(t);
      var d := DeviceOf(devices, t).value;
    }
  }

  class TransactionService {
    const context: VendingDbContext

    constructor (context: VendingDbContext)
      ensures this.context == context
    {
      this.context := context;
    }

    /**
     * Create: refused when no device has the reported serial, then when the
     * device's owner has no product with the reported PLU; otherwise appends
     * one sale linked to that device and product, with amount, currency,
     * time and payment type copied as reported.
     */
    method Create(model: CreateTransactionModel) returns (r: Outcome)
      requires context.Valid()
      modifies context`transactions, context`nextTransactionId
      ensures context.Valid()
      ensures r == Fail(InvalidSerialNumber)
          <==> forall d :: d in context.devices ==> PaymentSerialKey(d) != model.serialNumber
      ensures r == Fail(InvalidProductPlu)
          <==> && ResolveDevice(context.devices, model.serialNumber).Success?
               && var owner := ResolveDevice(context.devices, model.serialNumber).value.userId;
                  forall p :: p in context.vendingProducts ==> PluKey(p) != (owner, model.itemNumber)
      ensures r == Ok || r == Fail(InvalidSerialNumber) || r == Fail(InvalidProductPlu)
      ensures r.Fail? ==> (context.transactions == old(context.transactions)
                           && context.nextTransactionId == old(context.nextTransactionId))
      ensures r.Ok? ==>
        var device := ResolveDevice(context.devices, model.serialNumber).value;
        var product := ResolveProduct(context.vendingProducts, model.itemNumber, device.userId).value;
        && context.transactions == old(context.transactions)
             + [Transaction(old(context.nextTransactionId), model.amount, model.currencyCode, model.createdAt,
                            device.id, product.id, model.paymentType)]
        && context.nextTransactionId == old(context.nextTransactionId) + 1
    {
      var device := ResolveDevice(context.devices, model.serialNumber);
      if device.Failure? {
        return Fail(device.error);
      }
      var d := device.value;
      var product := ResolveProduct(context.vendingProducts, model.itemNumber, d.userId);
      if product.Failure? {
        return Fail(product.error);
      }
      var p := product.value;
      var sale := Transaction(context.nextTransactionId, model.amount, model.currencyCode, model.createdAt,
                              d.id, p.id, model.paymentType);
      DistinctByAppend(context.transactions, TransactionKey, sale);
      assert Linked(sale, context.devices, context.vendingProducts);
      context.transactions := context.transactions + [sale];
      context.nextTransactionId := context.nextTransactionId + 1;
      r := Ok;
    }

    /** Delete: refused for an unknown id; otherwise removes exactly that sale. */
    method Delete(id: int) returns (r: Outcome)
      requires context.Valid()
      modifies context`transactions
      ensures context.Valid()
      ensures r == Fail(InvalidTransactionId) <==> FindById(old(context.transactions), id).Failure?
      ensures r == Ok || r == Fail(InvalidTransactionId)
      ensures r.Fail? ==> context.transactions == old(context.transactions)
      ensures r.Ok? ==> context.transactions
                        == RemoveAt(old(context.transactions), FindById(old(context.transactions), id).value)
      ensures r.Ok? ==> forall t :: t in context.transactions <==> t in old(context.transactions) && t.id != id
    {
      var found := FindById(context.transactions, id);
      if found.Failure? {
        return Fail(found.error);
      }
      var i := found.value;
      DistinctByRemoveAt(context.transactions, TransactionKey, i);
      context.transactions := RemoveAt(context.transactions, i);
      r := Ok;
    }
  }
}
