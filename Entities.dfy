/**
 * The six record kinds of the vending database and the errors the services
 * raise. Every owned record carries its row id, the id of the user (tenant)
 * that owns it, and the data fields that the service's create and update
 * models carry; a transaction is owned through its device.
 *
 * The `decimal` amount and the `double` coordinates are only copied by the
 * services and are held as `real`; a `DateTime` is held as its tick count.
 */
module Entities {

  /** CustomerEntity's ten data fields (also CreateCustomerModel, UpdateCustomerModel, GetCustomerModel). */
  datatype CustomerData = CustomerData(
    companyName: string, firstName: string, lastName: string,
    address: string, city: string, postCode: string, country: string,
    phone: string, email: string, taxNumber: string)

  datatype Customer = Customer(id: int, userId: int, data: CustomerData)

  /** PaymentDeviceEntity's five data fields (also its create and update models). */
  datatype PaymentDeviceData = PaymentDeviceData(
    name: string, manufacturer: string, osVersion: string, nfc: bool, chip: bool)

  datatype PaymentDevice = PaymentDevice(id: int, userId: int, data: PaymentDeviceData)

  /** VendingDeviceEntity's three data fields. */
  datatype VendingDeviceData = VendingDeviceData(
    model: string, manufacturer: string, softwareVersion: string)

  datatype VendingDevice = VendingDevice(id: int, userId: int, data: VendingDeviceData)

  /** VendingProductEntity's four data fields. */
  datatype VendingProductData = VendingProductData(
    plu: string, name: string, description: string, category: string)

  datatype VendingProduct = VendingProduct(id: int, userId: int, data: VendingProductData)

  /**
   * DeviceEntity's nine data fields: the installation of a payment device
   * and a vending device, by serial, at a customer's site.
   */
  datatype DeviceData = DeviceData(
    paymentDeviceSerial: string, vendingDeviceSerial: string,
    paymentDeviceId: int, vendingDeviceId: int, customerId: int,
    acceptCard: bool, acceptCash: bool,
    locationLat: real, locationLon: real)

  datatype Device = Device(id: int, userId: int, data: DeviceData)

  /** TransactionEntity: one sale, linked to the device and product it was resolved to. */
  datatype Transaction = Transaction(
    id: int, amount: real, currency: string, createdAt: int,
    deviceId: int, vendingProductId: int, paymentType: string)

  /** The exceptions the services throw, one per message. */
  datatype Error =
    | InvalidCustomerId | TaxNumberExists | CustomerInUse
    | InvalidPaymentDeviceId | PaymentDeviceInUse
    | InvalidVendingDeviceId | VendingDeviceInUse
    | InvalidVendingProductId | PluExists | VendingProductInUse
    | InvalidDeviceId | PaymentSerialExists | VendingSerialExists | DeviceInUse
    | InvalidSerialNumber | InvalidProductPlu | InvalidTransactionId

  /** The exception message each error carries. */
  function Message(e: Error): string
  {
    match e
    case InvalidCustomerId => "Invalid customer id"
    case TaxNumberExists => "Client with this tax number already exists."
    case CustomerInUse => "This customer is already used"
    case InvalidPaymentDeviceId => "Invalid payment device id"
    case PaymentDeviceInUse => "This payment device is already used"
    case InvalidVendingDeviceId => "Invalid vending device id"
    case VendingDeviceInUse => "This vending device is already used"
    case InvalidVendingProductId => "Invalid vending product id"
    case PluExists => "Product with this PLU already exists."
    case VendingProductInUse => "This vending product is already used"
    case InvalidDeviceId => "Invalid device id"
    case PaymentSerialExists => "Device with this payment device serial already exists."
    case VendingSerialExists => "Device with this vending device serial already exists."
    case DeviceInUse => "This device is already used"
    case InvalidSerialNumber => "Invalid device serial number"
    case InvalidProductPlu => "Invalid vending product PLU"
    case InvalidTransactionId => "Invalid transaction id"
  }

  /** The outcome of a `void` service call: returned normally, or threw. */
  datatype Outcome = Ok | Fail(error: Error)

  /** The outcome of a service call that returns a value. */
  datatype Result<T> = Success(value: T) | Failure(error: Error)

  // Primary keys and unique-index keys, as named functions so that every
  // statement about a key refers to the same function value.

  function CustomerKey(c: Customer): int { c.id }
  function PaymentDeviceKey(p: PaymentDevice): int { p.id }
  function VendingDeviceKey(v: VendingDevice): int { v.id }
  function VendingProductKey(p: VendingProduct): int { p.id }
  function DeviceKey(d: Device): int { d.id }
  function TransactionKey(t: Transaction): int { t.id }

  /** Customers are unique by (owner, tax number). */
  function TaxKey(c: Customer): (int, string) { (c.userId, c.data.taxNumber) }

  /** Products are unique by (owner, PLU). */
  function PluKey(p: VendingProduct): (int, string) { (p.userId, p.data.plu) }

  /** Devices are unique by payment-device serial, across all owners. */
  function PaymentSerialKey(d: Device): string { d.data.paymentDeviceSerial }

  /** Devices are unique by vending-device serial, across all owners. */
  function VendingSerialKey(d: Device): string { d.data.vendingDeviceSerial }
}
