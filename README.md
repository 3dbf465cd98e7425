# FutureVendWeb service layer in Dafny

FutureVendWeb is a multi-tenant back end for a fleet of vending machines.
A user (the tenant) registers payment terminals, vending machines,
customers and a product catalogue. The user combines them into installed
devices at customer sites. Terminals then report sales, which are stored as
transactions. This project models the six services that own those tables:
customers, payment devices, vending devices, vending products, devices and
transactions. It proves the rules they enforce on the shared store.

Module layout, one module per service file plus three shared ones:

- `Linq` – the LINQ operators the services use (`Any`, `FirstOrDefault`,
  `Where`, `Select`) over a table held as a sequence in storage order. It
  also holds row removal and lemmas about keys that are distinct across rows.
- `Entities` – one datatype per record kind, `(id, userId, data)`. Here
  `data` is the field list that the create and update models carry. The
  module also holds the service exceptions, as `Error`, with their exact
  messages.
- `Store` – `VendingDbContext`, a class with the six tables and one identity
  counter per table. `Valid()` is the store invariant that every service
  operation keeps:
  - ids are distinct, positive and below their counter;
  - `(owner, tax number)` is unique among customers;
  - `(owner, PLU)` is unique among products;
  - each device serial is unique across all owners;
  - every transaction links an existing device and an existing product that
    have the same owner.
- `Customers`, `PaymentDevices`, `VendingDevices`, `VendingProducts`,
  `Devices`, `Transactions` – one per service. Each has the service's pure
  queries as functions over the tables: validators, find-by-id, get and
  list. Each also has a service class whose `Create`, `Update` and `Delete`
  methods change the context's table in place. The field-level `modifies`
  frame (`context`customers`, ...) shows that nothing else changes.

A thrown exception is modelled as the result `Fail(e)` (or `Failure(e)`)
with nothing written. `FindById` returns the position of the row, which
stands for the tracked entity that `Update` and `Remove` act on. New ids come
from the identity counter, which is never reused.

Facts about the code that the model keeps as they are:

- `TransactionService.Create` checks neither the amount, the currency, the
  payment type nor the time. Only data annotations on the web request model
  do, and they are not part of the service.
- `Get`, `Update` and `Delete` of every service take only an id, not the
  caller. So they do not enforce "a tenant only touches its own records";
  only the `GetAll` listings and the owner stamped on `Create` are per-tenant.
- The database's unique index on devices is on the pair of serials. The
  service checks each serial on its own, and the invariant here is the
  stronger per-serial one that those checks establish.
- The context class in the repository declares its tables over older entity
  classes with a string `UserId`. The services work with the `*Entity`
  classes, with an `int` `UserId`, and the model follows the services.

## Model

| member | source | states |
|---|---|---|
| Customers.ValidateTaxNumber | FutureVendWeb/Services/Customer/CustomerService.cs:117-124 | refused exactly when a customer other than `id` has the same owner and tax number; the only error is the tax-number one |
| Customers.FindById | FutureVendWeb/Services/Customer/CustomerService.cs:105-115 | finds a row holding the id exactly when one exists, else "Invalid customer id" |
| Customers.Get | FutureVendWeb/Services/Customer/CustomerService.cs:50-68 | fails with "Invalid customer id" exactly when no row has the id; otherwise returns the ten stored fields of a row with that id |
| Customers.GetAll | FutureVendWeb/Services/Customer/CustomerService.cs:70-83 | lists every customer of the caller and nothing that is not a customer of the caller |
| Customers.CreateValidationIgnoresExclusion | FutureVendWeb/Services/Customer/CustomerService.cs:18 | with the exclusion id -1 the check fails exactly when the caller already has the tax number, because stored ids are positive |
| Customers.TaxNumberScopedByOwner | FutureVendWeb/Services/Customer/CustomerService.cs:119 | another owner's customer with the same tax number never changes the verdict |
| Customers.UpdateNeverConflictsWithItself | FutureVendWeb/Services/Customer/CustomerService.cs:88-89 | re-saving a customer with its own tax number and stored owner passes the check |
| Customers.CreateKeepsKeys | FutureVendWeb/Services/Customer/CustomerService.cs:16-35 | a create that passed the check keeps ids and (owner, tax number) unique |
| Customers.UpdateKeepsKeys | FutureVendWeb/Services/Customer/CustomerService.cs:85-103 | an update that passed the check keeps ids and (owner, tax number) unique |
| Customers.GetAfterCreate | FutureVendWeb/Services/Customer/CustomerService.cs:16-35 | Get of the new id returns exactly the fields given to Create |
| Customers.GetAfterUpdate | FutureVendWeb/Services/Customer/CustomerService.cs:85-103 | Get after an update returns exactly the fields written |
| Customers.DeleteKeepsDeviceSites | FutureVendWeb/Services/Customer/CustomerService.cs:37-48 | removing a customer that no device uses leaves every device's customer in the table |
| Customers.CustomerService.Create | FutureVendWeb/Services/Customer/CustomerService.cs:16-35 | fails with the tax-number error exactly when the caller has the tax number, changing nothing; otherwise appends one customer with the next id, the caller as owner and the ten fields; keeps the store invariant |
| Customers.CustomerService.Update | FutureVendWeb/Services/Customer/CustomerService.cs:85-103 | unknown id: "Invalid customer id"; then the tax-number check against the stored owner, excluding the customer itself; on success only the ten data fields of that row change |
| Customers.CustomerService.Delete | FutureVendWeb/Services/Customer/CustomerService.cs:37-48 | the outcome is Ok, "Invalid customer id" or "already used"; "Invalid customer id" exactly when the id is unknown (checked first), then "already used" exactly when a device refers to the customer; an existing unreferenced customer is removed, and exactly the customers with another id remain, and no device loses its customer |
| VendingProducts.ValidatePLU | FutureVendWeb/Services/VendingProducts/VendingProductService.cs:91-98 | refused exactly when a product other than `id` has the same owner and PLU |
| VendingProducts.FindVendingProduct | FutureVendWeb/Services/VendingProducts/VendingProductService.cs:82-90 | finds a row holding the id exactly when one exists, else "Invalid vending product id" |
| VendingProducts.Get | FutureVendWeb/Services/VendingProducts/VendingProductService.cs:58-68 | fails exactly when no row has the id; otherwise returns PLU, category, description and name of that row |
| VendingProducts.GetAll | FutureVendWeb/Services/VendingProducts/VendingProductService.cs:44-56 | lists every product of the caller and nothing else |
| VendingProducts.CreateValidationIgnoresExclusion | FutureVendWeb/Services/VendingProducts/VendingProductService.cs:19 | with the exclusion id -1 the check fails exactly when the caller already has the PLU |
| VendingProducts.PluScopedByOwner | FutureVendWeb/Services/VendingProducts/VendingProductService.cs:93 | the same PLU under another owner never changes the verdict |
| VendingProducts.UpdateNeverConflictsWithItself | FutureVendWeb/Services/VendingProducts/VendingProductService.cs:71-72 | re-saving a product with its own PLU and stored owner passes the check |
| VendingProducts.CreateKeepsKeys | FutureVendWeb/Services/VendingProducts/VendingProductService.cs:17-29 | a checked create keeps ids and (owner, PLU) unique |
| VendingProducts.UpdateKeepsKeys | FutureVendWeb/Services/VendingProducts/VendingProductService.cs:69-80 | a checked update keeps ids and (owner, PLU) unique |
| VendingProducts.GetAfterCreate | FutureVendWeb/Services/VendingProducts/VendingProductService.cs:17-29 | Get of the new id returns exactly the fields given to Create |
| VendingProducts.GetAfterUpdate | FutureVendWeb/Services/VendingProducts/VendingProductService.cs:69-80 | Get after an update returns exactly the fields written |
| VendingProducts.VendingProductService.Create | FutureVendWeb/Services/VendingProducts/VendingProductService.cs:17-29 | fails with the PLU error exactly when the caller has the PLU, changing nothing; otherwise appends one product owned by the caller with the four fields; keeps the store invariant, sales links included |
| VendingProducts.VendingProductService.Update | FutureVendWeb/Services/VendingProducts/VendingProductService.cs:69-80 | unknown id first; then the PLU check against the stored owner excluding itself; on success only the four data fields change |
| VendingProducts.VendingProductService.Delete | FutureVendWeb/Services/VendingProducts/VendingProductService.cs:31-42 | the outcome is Ok, "already used" or "Invalid vending product id"; "already used" exactly when a transaction sold the product, checked before existence; then "Invalid vending product id" exactly for an unknown id; an existing unsold product is removed, and exactly the products with another id remain and every sale keeps its product |
| PaymentDevices.FindByID | FutureVendWeb/Services/PaymentDevice/PaymentDeviceService.cs:88-96 | finds a row holding the id exactly when one exists, else "Invalid payment device id" |
| PaymentDevices.Get | FutureVendWeb/Services/PaymentDevice/PaymentDeviceService.cs:46-59 | fails exactly when no row has the id; otherwise returns the stored id and the five stored fields |
| PaymentDevices.GetAll | FutureVendWeb/Services/PaymentDevice/PaymentDeviceService.cs:61-74 | lists every payment device of the caller and nothing else |
| PaymentDevices.GetAfterCreate | FutureVendWeb/Services/PaymentDevice/PaymentDeviceService.cs:17-29 | Get of the new id returns that id and exactly the fields given |
| PaymentDevices.GetAfterUpdate | FutureVendWeb/Services/PaymentDevice/PaymentDeviceService.cs:76-86 | Get after an update returns the same id and exactly the fields written |
| PaymentDevices.DeleteKeepsDeviceTerminals | FutureVendWeb/Services/PaymentDevice/PaymentDeviceService.cs:31-44 | removing a payment device that no device uses leaves every device's payment device in the table |
| PaymentDevices.PaymentDeviceService.Create | FutureVendWeb/Services/PaymentDevice/PaymentDeviceService.cs:17-29 | always appends one payment device with the next id, the caller as owner and the five fields |
| PaymentDevices.PaymentDeviceService.Update | FutureVendWeb/Services/PaymentDevice/PaymentDeviceService.cs:76-86 | unknown id: "Invalid payment device id" and nothing changes; otherwise only the five data fields of that row change |
| PaymentDevices.PaymentDeviceService.Delete | FutureVendWeb/Services/PaymentDevice/PaymentDeviceService.cs:31-44 | the outcome is Ok, "already used" or the id error; "already used" exactly when a device refers to it, checked before existence; then the id error exactly for an unknown id; an existing unused payment device is removed, and exactly the rows with another id remain |
| VendingDevices.FindVendingDevice | FutureVendWeb/Services/VendingDevice/VendingDeviceService.cs:81-89 | finds a row holding the id exactly when one exists, else "Invalid vending device id" |
| VendingDevices.Get | FutureVendWeb/Services/VendingDevice/VendingDeviceService.cs:31-41 | fails exactly when no row has the id; otherwise returns manufacturer, model and software version of that row |
| VendingDevices.GetAll | FutureVendWeb/Services/VendingDevice/VendingDeviceService.cs:17-29 | lists every vending device of the caller and nothing else |
| VendingDevices.GetAfterCreate | FutureVendWeb/Services/VendingDevice/VendingDeviceService.cs:43-53 | Get of the new id returns exactly the fields given |
| VendingDevices.GetAfterUpdate | FutureVendWeb/Services/VendingDevice/VendingDeviceService.cs:55-64 | Get after an update returns exactly the fields written |
| VendingDevices.DeleteKeepsDeviceMachines | FutureVendWeb/Services/VendingDevice/VendingDeviceService.cs:66-79 | removing a vending device that no device uses leaves every device's vending device in the table |
| VendingDevices.VendingDeviceService.Create | FutureVendWeb/Services/VendingDevice/VendingDeviceService.cs:43-53 | always appends one vending device with the next id, the caller as owner and the three fields |
| VendingDevices.VendingDeviceService.Update | FutureVendWeb/Services/VendingDevice/VendingDeviceService.cs:55-64 | unknown id: "Invalid vending device id" and nothing changes; otherwise only the three data fields change |
| VendingDevices.VendingDeviceService.Delete | FutureVendWeb/Services/VendingDevice/VendingDeviceService.cs:66-79 | the outcome is Ok, "already used" or the id error; "already used" exactly when a device refers to it, checked before existence; then the id error exactly for an unknown id; an existing unused vending device is removed, and exactly the rows with another id remain |
| Devices.ValidatePaymentDeviceSerial | FutureVendWeb/Services/Device/DeviceService.cs:204-211 | refused exactly when a device other than `id`, of any owner, has the payment serial |
| Devices.ValidateVendingDeviceSerial | FutureVendWeb/Services/Device/DeviceService.cs:212-219 | refused exactly when a device other than `id`, of any owner, has the vending serial |
| Devices.ValidateSerials | FutureVendWeb/Services/Device/DeviceService.cs:20-21 | payment-serial error exactly when that serial clashes; vending-serial error exactly when only the vending serial clashes |
| Devices.FindById | FutureVendWeb/Services/Device/DeviceService.cs:162-170 | finds a row holding the id exactly when one exists, else "Invalid device id" |
| Devices.GetDeviceDetails | FutureVendWeb/Services/Device/DeviceService.cs:172-202 | fails exactly when no row has the id; otherwise returns the nine stored fields of that row |
| Devices.GetAll | FutureVendWeb/Services/Device/DeviceService.cs:90-107 | lists every device of the caller, with id and both serials, and nothing else |
| Devices.SerialCheckIgnoresOwner | FutureVendWeb/Services/Device/DeviceService.cs:204-219 | the owner passed in never changes the verdict; a clash with another owner's device is refused |
| Devices.CreateValidationIgnoresExclusion | FutureVendWeb/Services/Device/DeviceService.cs:20-21 | with the exclusion id -1 both checks pass exactly when no device has either serial |
| Devices.UpdateNeverConflictsWithItself | FutureVendWeb/Services/Device/DeviceService.cs:144-146 | re-saving a device with its own serials passes both checks |
| Devices.CreateKeepsKeys | FutureVendWeb/Services/Device/DeviceService.cs:18-36 | a checked create keeps ids and each serial unique |
| Devices.UpdateKeepsKeys | FutureVendWeb/Services/Device/DeviceService.cs:142-160 | a checked update keeps ids and each serial unique |
| Devices.GetAfterCreate | FutureVendWeb/Services/Device/DeviceService.cs:18-36 | the details of the new id are exactly the fields given |
| Devices.GetAfterUpdate | FutureVendWeb/Services/Device/DeviceService.cs:142-160 | the details after an update are exactly the fields written |
| Devices.DeviceService.Create | FutureVendWeb/Services/Device/DeviceService.cs:18-36 | payment-serial error exactly when any device has that serial, then vending-serial error, nothing changed on either; otherwise appends one device with the next id, the caller as owner and the nine fields; keeps the store invariant |
| Devices.DeviceService.Update | FutureVendWeb/Services/Device/DeviceService.cs:142-160 | unknown id first; then both serial checks excluding itself; on success only the nine data fields change, and sales keep their device |
| Devices.DeviceService.Delete | FutureVendWeb/Services/Device/DeviceService.cs:38-50 | the outcome is Ok, "already used" or "Invalid device id"; "already used" exactly when a transaction was made on it, checked before existence; then "Invalid device id" exactly for an unknown id; an existing unused device is removed, and exactly the devices with another id remain |
| Transactions.ResolveDevice | FutureVendWeb/Services/Transaction/TransactionService.cs:25-31 | "Invalid device serial number" exactly when no device has the payment serial; otherwise the first device in storage order with it |
| Transactions.ResolveProduct | FutureVendWeb/Services/Transaction/TransactionService.cs:33-39 | "Invalid vending product PLU" exactly when the given owner has no product with the PLU; otherwise the first such product in storage order |
| Transactions.FindById | FutureVendWeb/Services/Transaction/TransactionService.cs:121-129 | finds a row holding the id exactly when one exists, else "Invalid transaction id" |
| Transactions.Get | FutureVendWeb/Services/Transaction/TransactionService.cs:63-97 | unknown id: "Invalid transaction id"; then "Invalid device id" exactly when its device is missing; then "Invalid vending product id" exactly when its product is missing; these are the only outcomes, so when sale, device and product all exist it succeeds with amount, currency, time and payment type of the sale |
| Transactions.GetAll | FutureVendWeb/Services/Transaction/TransactionService.cs:99-119 | lists every sale whose device belongs to the caller and nothing else |
| Transactions.GetSucceedsWhenLinked | FutureVendWeb/Services/Transaction/TransactionService.cs:73-92 | for a sale stored under the store invariant, Get never takes either missing-reference path |
| Transactions.ResolvedDeviceIsTheSerialsDevice | FutureVendWeb/Services/Transaction/TransactionService.cs:25-26 | with unique payment serials the resolved device is the one device with that serial |
| Transactions.ResolvedProductIsTheOwnersProduct | FutureVendWeb/Services/Transaction/TransactionService.cs:33-34 | with unique (owner, PLU) the resolved product is the owner's one product with that PLU |
| Transactions.ProductScopedByDeviceOwner | FutureVendWeb/Services/Transaction/TransactionService.cs:34 | another owner's product never changes which product is resolved, or whether one is |
| Transactions.GetAllListsExactlyOwnSales | FutureVendWeb/Services/Transaction/TransactionService.cs:107 | with unique device ids the caller sees exactly the sales made on the caller's devices |
| Transactions.TransactionService.Create | FutureVendWeb/Services/Transaction/TransactionService.cs:23-52 | serial error exactly when no device has the serial; PLU error exactly when the device's owner lacks the PLU; both change nothing; otherwise appends one sale with the next id, the resolved device and product, and the reported amount, currency, time and payment type; keeps the store invariant, so device and product share an owner |
| Transactions.TransactionService.Delete | FutureVendWeb/Services/Transaction/TransactionService.cs:54-60 | unknown id: "Invalid transaction id" and nothing changes; otherwise exactly the sales with another id remain |

## Left out

- Controllers, `UserService`, the session login, `Program.cs` and the Identity pages are web and authentication plumbing. The caller's id is a parameter.
- `TransactionsController.AddTransactionViaProcedure` and the `insert_transaction` stored procedure are raw SQL over a database connection. `TransactionService.Create` is modelled instead.
- Database configuration and migrations are not modelled: unique indexes, foreign keys, cascades. In particular, a device write whose customer, payment-device or vending-device id does not exist would fail inside `SaveChanges`; the model accepts any ids there.
- `DeviceService.GetCreateDevice` and the select lists of `GetEditDevice` are presentation only. The data fields of `GetEditDevice` are the same lookup as `GetDeviceDetails`.
- Devices.GetDeviceDetails: the "Information" display strings are not modelled, nor are the joins that build them. The model also omits the `Id` of `DeviceDetailsModel`, which the source never fills in.
- Devices.GetAll: states which rows are listed, not their order or how many times each row appears. It returns id and both serials; the three display strings are not modelled, and neither are `VendingDeviceId` and `CustomerId` of `GetAllDevicesWithViewModel`, which the source never fills in.
- Transactions.Get: the display strings are not modelled, and the model omits `Id`, `DeviceId` and `VendingProductId` of `GetTransactionModel`, which the source never fills in.
- Transactions.GetAll: states which rows are listed, not their order or how many times each row appears. It returns id, amount and currency; the display strings are not modelled.
- Customers.GetAll: states which rows are listed, not their order or how many times each row appears.
- VendingProducts.GetAll: states which rows are listed, not their order or how many times each row appears.
- PaymentDevices.GetAll: states which rows are listed, not their order or how many times each row appears.
- VendingDevices.GetAll: states which rows are listed, not their order or how many times each row appears.
- Data-annotation validation is done by the framework before a service is called, not by the services: amount range, currency and payment-type patterns, latitude and longitude ranges.
- The `decimal` amount and the `double` coordinates are copied, never computed with, and are held as `real`. A `DateTime` is held as an integer tick count.
- String comparison is exact `==`. The MySQL database configured in `Program.cs:23` compares strings under the utf8mb4 default collation, which ignores case and accents, so "bg123" and "BG123" clash there as tax numbers, PLUs or serials but not in the model.
- Column types are not modelled: the amount is stored as `decimal(18,2)` and the currency as `varchar(3)` (`Migrations/20250517175039_InitialCreate.cs:159-160`), so a stored value can differ from the one written; the model stores every value verbatim.
- Concurrency is not modelled. Every service call is one atomic check-then-write on one context.
