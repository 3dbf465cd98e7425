/**
 * DeviceService: installations of a payment device and a vending device at
 * a customer's site. Each serial is unique across ALL owners (the owner
 * argument of the two validators is ignored), and a device cannot be deleted
 * once a transaction was made on it.
 */
module Devices {
  import opened Entities
  import opened Linq
  import opened Store

  /** One row of GetAll's result (GetAllDevicesWithViewModel, without its display strings). */
  datatype DeviceListItem = DeviceListItem(id: int, paymentDeviceSerial: string, vendingDeviceSerial: string)

  function ListItem(d: Device): DeviceListItem
  {
    DeviceListItem(d.id, d.data.paymentDeviceSerial, d.data.vendingDeviceSerial)
  }

  /**
   * ValidatePaymentDeviceSerial: the write is refused when a device other
   * than `id`, of any owner, has the payment-device serial.
   */
  function ValidatePaymentDeviceSerial(devices: seq<Device>, id: int, userId: int, serial: string): (r: Outcome)
    ensures r == Ok || r == Fail(PaymentSerialExists)
    ensures r.Fail? <==> exists d :: d in devices && d.id != id && PaymentSerialKey(d) == serial
  {
    if Any(devices, (d: Device) => d.id != id && d.data.paymentDeviceSerial == serial)
    then Fail(PaymentSerialExists)
    else Ok
  }

  /**
   * ValidateVendingDeviceSerial: the write is refused when a device other
   * than `id`, of any owner, has the vending-device serial.
   */
  function ValidateVendingDeviceSerial(devices: seq<Device>, id: int, userId: int, serial: string): (r: Outcome)
    ensures r == Ok || r == Fail(VendingSerialExists)
    ensures r.Fail? <==> exists d :: d in devices && d.id != id && VendingSerialKey(d) == serial
  {
    if Any(devices, (d: Device) => d.id != id && d.data.vendingDeviceSerial == serial)
    then Fail(VendingSerialExists)
    else Ok
  }

  /** Both serial checks in the order the service makes them: payment first. */
  function ValidateSerials(devices: seq<Device>, id: int, userId: int, model: DeviceData): (r: Outcome)
    ensures r == Fail(PaymentSerialExists)
        <==> exists d :: d in devices && d.id != id && PaymentSerialKey(d) == model.paymentDeviceSerial
    ensures r == Fail(VendingSerialExists)
        <==> (forall d :: d in devices && d.id != id ==> PaymentSerialKey(d) != model.paymentDeviceSerial)
             && exists d :: d in devices && d.id != id && VendingSerialKey(d) == model.vendingDeviceSerial
    ensures r == Ok || r == Fail(PaymentSerialExists) || r == Fail(VendingSerialExists)
  {
    var payment := ValidatePaymentDeviceSerial(devices, id, userId, model.paymentDeviceSerial);
    if payment.Fail? then payment
    else ValidateVendingDeviceSerial(devices, id, userId, model.vendingDeviceSerial)
  }

  /** FindById: the row (its position) holding device `id`. */
  function FindById(devices: seq<Device>, id: int): (r: Result<nat>)
    ensures r.Success? ==> r.value < |devices| && devices[r.value].id == id
    ensures r.Failure? <==> forall d :: d in devices ==> d.id != id
    ensures r.Failure? ==> r.error == InvalidDeviceId
  {
    match FirstIndex(devices, (d: Device) => d.id == id)
    case None => Failure(InvalidDeviceId)
    case Some(i) => Success(i)
  }

  /** GetDeviceDetails: the nine data fields of device `id`. */
  function GetDeviceDetails(devices: seq<Device>, id: int): (r: Result<DeviceData>)
    ensures r.Failure? <==> forall d :: d in devices ==> d.id != id
    ensures r.Failure? ==> r.error == InvalidDeviceId
    ensures r.Success? ==> exists d :: d in devices && d.id == id && d.data == r.value
  {
    match FindById(devices, id)
    case Failure(e) => Failure(e)
    case Success(i) => Success(devices[i].data)
  }

  /** GetAll: exactly the caller's devices, projected to list rows. */
  function GetAll(devices: seq<Device>, userId: int): (r: seq<DeviceListItem>)
    ensures forall d :: d in devices && d.userId == userId ==> ListItem(d) in r
    ensures forall item :: item in r ==> exists d :: d in devices && d.userId == userId && item == ListItem(d)
  {
    Select(Where(devices, (d: Device) => d.userId == userId), ListItem)
  }

  /**
   * The check is global: whoever asks, a serial another device already has
   * is refused, and the owner passed in never changes the answer.
   */
  lemma SerialCheckIgnoresOwner(devices: seq<Device>, id: int, userId: int, otherUserId: int, model: DeviceData)
    ensures ValidateSerials(devices, id, userId, model) == ValidateSerials(devices, id, otherUserId, model)
    ensures forall d :: d in devices && d.id != id && d.userId != userId
              && PaymentSerialKey(d) == model.paymentDeviceSerial
              ==> ValidateSerials(devices, id, userId, model) == Fail(PaymentSerialExists)
  {
  }

  /** On create the exclusion id -1 matches no row: every device's serials count. */
  lemma CreateValidationIgnoresExclusion(devices: seq<Device>, next: int, userId: int, model: DeviceData)
    requires Keyed(devices, DeviceKey, next)
    ensures ValidateSerials(devices, -1, userId, model) == Ok
        <==> forall d :: d in devices ==> (PaymentSerialKey(d) != model.paymentDeviceSerial
                                           && VendingSerialKey(d) != model.vendingDeviceSerial)
  {
    forall d | d in devices
      ensures d.id != -1
    {
      assert DeviceKey(d) > 0;
    }
  }

  /** Re-saving a device with its own serials never conflicts with itself. */
  lemma UpdateNeverConflictsWithItself(devices: seq<Device>, i: nat)
    requires DistinctBy(devices, PaymentSerialKey) && DistinctBy(devices, VendingSerialKey) && i < |devices|
    ensures ValidateSerials(devices, devices[i].id, devices[i].userId, devices[i].data) == Ok
  {
    var me := devices[i];
    forall d | d in devices && PaymentSerialKey(d) == PaymentSerialKey(me)
      ensures d.id == me.id
    {
      DistinctKeyDetermines(devices, PaymentSerialKey, d, me);
    }
    forall d | d in devices && VendingSerialKey(d) == VendingSerialKey(me)
      ensures d.id == me.id
    {
      DistinctKeyDetermines(devices, VendingSerialKey, d, me);
    }
  }

  /** A validated create keeps ids and both serials unique. */
  lemma CreateKeepsKeys(devices: seq<Device>, next: int, userId: int, model: DeviceData)
    requires Keyed(devices, DeviceKey, next)
    requires DistinctBy(devices, PaymentSerialKey) && DistinctBy(devices, VendingSerialKey)
    requires ValidateSerials(devices, -1, userId, model) == Ok
    ensures Keyed(devices + [Device(next, userId, model)], DeviceKey, next + 1)
    ensures DistinctBy(devices + [Device(next, userId, model)], PaymentSerialKey)
    ensures DistinctBy(devices + [Device(next, userId, model)], VendingSerialKey)
  {
    var d := Device(next, userId, model);
    DistinctByAppend(devices, DeviceKey, d);
    CreateValidationIgnoresExclusion(devices, next, userId, model);
    DistinctByAppend(devices, PaymentSerialKey, d);
    DistinctByAppend(devices, VendingSerialKey, d);
  }

  /** A validated update keeps ids and both serials unique. */
  lemma UpdateKeepsKeys(devices: seq<Device>, next: int, i: nat, model: DeviceData)
    requires Keyed(devices, DeviceKey, next) && i < |devices|
    requires DistinctBy(devices, PaymentSerialKey) && DistinctBy(devices, VendingSerialKey)
    requires ValidateSerials(devices, devices[i].id, devices[i].userId, model) == Ok
    ensures Keyed(devices[i := devices[i].(data := model)], DeviceKey, next)
    ensures DistinctBy(devices[i := devices[i].(data := model)], PaymentSerialKey)
    ensures DistinctBy(devices[i := devices[i].(data := model)], VendingSerialKey)
  {
    var d := devices[i].(data := model);
    forall j | 0 <= j < |devices| && j != i
      ensures PaymentSerialKey(devices[j]) != PaymentSerialKey(d)
      ensures VendingSerialKey(devices[j]) != VendingSerialKey(d)
    {
      assert devices[j].id != devices[i].id;
    }
    DistinctByUpdate(devices, PaymentSerialKey, i, d);
    DistinctByUpdate(devices, VendingSerialKey, i, d);
    DistinctByUpdate(devices, DeviceKey, i, d);
  }

  /** Round trip: a created device is found under its new id with the fields given. */
  lemma GetAfterCreate(devices: seq<Device>, next: int, userId: int, model: DeviceData)
    requires Keyed(devices, DeviceKey, next)
    ensures GetDeviceDetails(devices + [Device(next, userId, model)], next) == Success(model)
  {
  }

  /** Round trip: after an update, GetDeviceDetails returns exactly the fields written. */
  lemma GetAfterUpdate(devices: seq<Device>, i: nat, model: DeviceData)
    requires DistinctBy(devices, DeviceKey) && i < |devices|
    ensures GetDeviceDetails(devices[i := devices[i].(data := model)], devices[i].id) == Success(model)
  {
    var updated := devices[i := devices[i].(data := model)];
    DistinctByUpdate(devices, DeviceKey, i, updated[i]);
    var j := FindById(updated, devices[i].id).value;
    DistinctKeyDetermines(updated, DeviceKey, updated[i], updated[j]);
  }

  class DeviceService {
    const context: VendingDbContext

    constructor (context: VendingDbContext)
      ensures this.context == context
    {
      this.context := context;
    }

    /**
     * Create: refused when any device already has the payment serial, then
     * when any device already has the vending serial; otherwise appends one
     * device owned by the caller with the nine fields copied.
     */
    method Create(model: DeviceData, userId: int) returns (r: Outcome)
      requires context.Valid()
      modifies context`devices, context`nextDeviceId
      ensures context.Valid()
      ensures r == Fail(PaymentSerialExists)
          <==> exists d :: d in old(context.devices) && PaymentSerialKey(d) == model.paymentDeviceSerial
      ensures r == Fail(VendingSerialExists)
          <==> (forall d :: d in old(context.devices) ==> PaymentSerialKey(d) != model.paymentDeviceSerial)
               && exists d :: d in old(context.devices) && VendingSerialKey(d) == model.vendingDeviceSerial
      ensures r == Ok || r == Fail(PaymentSerialExists) || r == Fail(VendingSerialExists)
      ensures r.Fail? ==> (context.devices == old(context.devices) && context.nextDeviceId == old(context.nextDeviceId))
      ensures r.Ok? ==> context.devices == old(context.devices) + [Device(old(context.nextDeviceId), userId, model)]
      ensures r.Ok? ==> context.nextDeviceId == old(context.nextDeviceId) + 1
    {
      CreateValidationIgnoresExclusion(context.devices, context.nextDeviceId, userId, model);
      forall d | d in context.devices
        ensures d.id != -1
      {
        assert DeviceKey(d) > 0;
      }
      r := ValidatePaymentDeviceSerial(context.devices, -1, userId, model.paymentDeviceSerial);
      if r.Fail? {
        return;
      }
      r := ValidateVendingDeviceSerial(context.devices, -1, userId, model.vendingDeviceSerial);
      if r.Fail? {
        return;
      }
      var device := Device(context.nextDeviceId, userId, model);
      CreateKeepsKeys(context.devices, context.nextDeviceId, userId, model);
      DevicesKeptForSales(context.transactions, context.devices, context.devices + [device], context.vendingProducts);
      context.devices := context.devices + [device];
      context.nextDeviceId := context.nextDeviceId + 1;
    }

    /**
     * Update: refused for an unknown id, then when another device has either
     * new serial (payment checked first); otherwise overwrites the nine data
     * fields, keeping id and owner.
     */
    method Update(id: int, model: DeviceData) returns (r: Outcome)
      requires context.Valid()
      modifies context`devices
      ensures context.Valid()
      ensures match FindById(old(context.devices), id)
        case Failure(_) =>
          r == Fail(InvalidDeviceId) && context.devices == old(context.devices)
        case Success(i) =>
          var before := old(context.devices);
          r == ValidateSerials(before, id, before[i].userId, model)
          && context.devices == (if r.Ok? then before[i := before[i].(data := model)] else before)
    {
      var found := FindById(context.devices, id);
      if found.Failure? {
        return Fail(found.error);
      }
      var i := found.value;
      var device := context.devices[i];
      r := ValidatePaymentDeviceSerial(context.devices, id, device.userId, model.paymentDeviceSerial);
      if r.Fail? {
        return;
      }
      r := ValidateVendingDeviceSerial(context.devices, id, device.userId, model.vendingDeviceSerial);
      if r.Fail? {
        return;
      }
      UpdateKeepsKeys(context.devices, context.nextDeviceId, i, model);
      var updated := context.devices[i := device.(data := model)];
      forall d | d in context.devices
        ensures d in updated || exists e :: e in updated && e.id == d.id && e.userId == d.userId
      {
        var k :| 0 <= k < |context.devices| && context.devices[k] == d;
        assert updated[k].id == d.id && updated[k].userId == d.userId;
      }
      DevicesKeptForSales(context.transactions, context.devices, updated, context.vendingProducts);
      context.devices := updated;
    }

    /**
     * Delete: refused while a transaction was made on the device (checked
     * before the id is looked up), then for an unknown id; otherwise removes
     * exactly that device.
     */
    method Delete(id: int) returns (r: Outcome)
      requires context.Valid()
      modifies context`devices
      ensures context.Valid()
      ensures r == Ok || r == Fail(DeviceInUse) || r == Fail(InvalidDeviceId)
      ensures r == Fail(DeviceInUse) <==> exists t :: t in context.transactions && t.deviceId == id
      ensures r == Fail(InvalidDeviceId)
          <==> (forall t :: t in context.transactions ==> t.deviceId != id)
               && FindById(old(context.devices), id).Failure?
      ensures r.Fail? ==> context.devices == old(context.devices)
      ensures r.Ok? ==> context.devices == RemoveAt(old(context.devices), FindById(old(context.devices), id).value)
      ensures r.Ok? ==> forall d :: d in context.devices <==> d in old(context.devices) && d.id != id
    {
      if Any(context.transactions, (t: Transaction) => t.deviceId == id) {
        return Fail(DeviceInUse);
      }
      var found := FindById(context.devices, id);
      if found.Failure? {
        return Fail(found.error);
      }
      var i := found.value;
      DistinctByRemoveAt(context.devices, DeviceKey, i);
      DistinctByRemoveAt(context.devices, PaymentSerialKey, i);
      DistinctByRemoveAt(context.devices, VendingSerialKey, i);
      DevicesKeptForSales(context.transactions, context.devices, RemoveAt(context.devices, i), context.vendingProducts);
      context.devices := RemoveAt(context.devices, i);
      r := Ok;
    }
  }
}
