/**
 * PaymentDeviceService: a user's payment-terminal models. Nothing is
 * validated on create or update; a payment device cannot be deleted while an
 * installed device refers to it.
 */
module PaymentDevices {
  import opened Entities
  import opened Linq
  import opened Store

  /** One row of GetAll's result (GetAllPaymentDevicesViewModel). */
  datatype PaymentDeviceListItem = PaymentDeviceListItem(id: int, name: string, manufacturer: string)

  /** Get's result (GetPaymentDeviceModel): the stored id and the five data fields. */
  datatype PaymentDeviceDetails = PaymentDeviceDetails(id: int, data: PaymentDeviceData)

  function ListItem(p: PaymentDevice): PaymentDeviceListItem
  {
    PaymentDeviceListItem(p.id, p.data.name, p.data.manufacturer)
  }

  /** FindByID: the row (its position) holding payment device `id`. */
  function FindByID(paymentDevices: seq<PaymentDevice>, id: int): (r: Result<nat>)
    ensures r.Success? ==> r.value < |paymentDevices| && paymentDevices[r.value].id == id
    ensures r.Failure? <==> forall p :: p in paymentDevices ==> p.id != id
    ensures r.Failure? ==> r.error == InvalidPaymentDeviceId
  {
    match FirstIndex(paymentDevices, (p: PaymentDevice) => p.id == id)
    case None => Failure(InvalidPaymentDeviceId)
    case Some(i) => Success(i)
  }

  /** Get: the stored id and fields of payment device `id`, unchanged. */
  function Get(paymentDevices: seq<PaymentDevice>, id: int): (r: Result<PaymentDeviceDetails>)
    ensures r.Failure? <==> forall p :: p in paymentDevices ==> p.id != id
    ensures r.Failure? ==> r.error == InvalidPaymentDeviceId
    ensures r.Success? ==> r.value.id == id
    ensures r.Success? ==> exists p :: p in paymentDevices && p.id == id && p.data == r.value.data
  {
    match FindByID(paymentDevices, id)
    case Failure(e) => Failure(e)
    case Success(i) => Success(PaymentDeviceDetails(paymentDevices[i].id, paymentDevices[i].data))
  }

  /** GetAll: exactly the caller's payment devices, projected to list rows. */
  function GetAll(paymentDevices: seq<PaymentDevice>, userId: int): (r: seq<PaymentDeviceListItem>)
    ensures forall p :: p in paymentDevices && p.userId == userId ==> ListItem(p) in r
    ensures forall item :: item in r ==> exists p :: p in paymentDevices && p.userId == userId && item == ListItem(p)
  {
    Select(Where(paymentDevices, (p: PaymentDevice) => p.userId == userId), ListItem)
  }

  /** Round trip: a created payment device is found under its new id with the fields given. */
  lemma GetAfterCreate(paymentDevices: seq<PaymentDevice>, next: int, userId: int, model: PaymentDeviceData)
    requires Keyed(paymentDevices, PaymentDeviceKey, next)
    ensures Get(paymentDevices + [PaymentDevice(next, userId, model)], next) == Success(PaymentDeviceDetails(next, model))
  {
  }

  /** Round trip: after an update, Get returns the same id and exactly the fields written. */
  lemma GetAfterUpdate(paymentDevices: seq<PaymentDevice>, i: nat, model: PaymentDeviceData)
    requires DistinctBy(paymentDevices, PaymentDeviceKey) && i < |paymentDevices|
    ensures Get(paymentDevices[i := paymentDevices[i].(data := model)], paymentDevices[i].id)
         == Success(PaymentDeviceDetails(paymentDevices[i].id, model))
  {
    var updated := paymentDevices[i := paymentDevices[i].(data := model)];
    DistinctByUpdate(paymentDevices, PaymentDeviceKey, i, updated[i]);
    var j := FindByID(updated, paymentDevices[i].id).value;
    DistinctKeyDetermines(updated, PaymentDeviceKey, updated[i], updated[j]);
  }

  /** Deleting an unreferenced payment device leaves every installation's terminal in place. */
  lemma DeleteKeepsDeviceTerminals(devices: seq<Device>, paymentDevices: seq<PaymentDevice>, i: nat)
    requires DistinctBy(paymentDevices, PaymentDeviceKey) && i < |paymentDevices|
    requires DevicesReferToPaymentDevices(devices, paymentDevices)
    requires forall d :: d in devices ==> d.data.paymentDeviceId != paymentDevices[i].id
    ensures DevicesReferToPaymentDevices(devices, RemoveAt(paymentDevices, i))
  {
    DistinctByRemoveAt(paymentDevices, PaymentDeviceKey, i);
  }

  class PaymentDeviceService {
    const context: VendingDbContext

    constructor (context: VendingDbContext)
      ensures this.context == context
    {
      this.context := context;
    }

    /** Create: always appends one payment device owned by the caller with the five fields copied. */
    method Create(model: PaymentDeviceData, userId: int)
      requires context.Valid()
      modifies context`paymentDevices, context`nextPaymentDeviceId
      ensures context.Valid()
      ensures context.paymentDevices
              == old(context.paymentDevices) + [PaymentDevice(old(context.nextPaymentDeviceId), userId, model)]
      ensures context.nextPaymentDeviceId == old(context.nextPaymentDeviceId) + 1
    {
      var paymentDevice := PaymentDevice(context.nextPaymentDeviceId, userId, model);
      DistinctByAppend(context.paymentDevices, PaymentDeviceKey, paymentDevice);
      context.paymentDevices := context.paymentDevices + [paymentDevice];
      context.nextPaymentDeviceId := context.nextPaymentDeviceId + 1;
    }

    /** Update: refused for an unknown id; otherwise overwrites the five data fields, keeping id and owner. */
    method Update(id: int, model: PaymentDeviceData) returns (r: Outcome)
      requires context.Valid()
      modifies context`paymentDevices
      ensures context.Valid()
      ensures match FindByID(old(context.paymentDevices), id)
        case Failure(_) =>
          r == Fail(InvalidPaymentDeviceId) && context.paymentDevices == old(context.paymentDevices)
        case Success(i) =>
          r == Ok && context.paymentDevices == old(context.paymentDevices)[i := old(context.paymentDevices)[i].(data := model)]
    {
      var found := FindByID(context.paymentDevices, id);
      if found.Failure? {
        return Fail(found.error);
      }
      var i := found.value;
      var paymentDevice := context.paymentDevices[i].(data := model);
      DistinctByUpdate(context.paymentDevices, PaymentDeviceKey, i, paymentDevice);
      context.paymentDevices := context.paymentDevices[i := paymentDevice];
      r := Ok;
    }

    /**
     * Delete: refused while an installed device refers to the payment device
     * (checked before the id is looked up), then for an unknown id;
     * otherwise removes exactly that payment device.
     */
    method Delete(id: int) returns (r: Outcome)
      requires context.Valid()
      modifies context`paymentDevices
      ensures context.Valid()
      ensures r == Ok || r == Fail(PaymentDeviceInUse) || r == Fail(InvalidPaymentDeviceId)
      ensures r == Fail(PaymentDeviceInUse) <==> exists d :: d in context.devices && d.data.paymentDeviceId == id
      ensures r == Fail(InvalidPaymentDeviceId)
          <==> (forall d :: d in context.devices ==> d.data.paymentDeviceId != id)
               && FindByID(old(context.paymentDevices), id).Failure?
      ensures r.Fail? ==> context.paymentDevices == old(context.paymentDevices)
      ensures r.Ok? ==> context.paymentDevices
                        == RemoveAt(old(context.paymentDevices), FindByID(old(context.paymentDevices), id).value)
      ensures r.Ok? ==> forall p :: p in context.paymentDevices <==> p in old(context.paymentDevices) && p.id != id
      ensures r.Ok? && DevicesReferToPaymentDevices(context.devices, old(context.paymentDevices))
        ==> DevicesReferToPaymentDevices(context.devices, context.paymentDevices)
    {
      if Any(context.devices, (d: Device) => d.data.paymentDeviceId == id) {
        return Fail(PaymentDeviceInUse);
      }
      var found := FindByID(context.paymentDevices, id);
      if found.Failure? {
        return Fail(found.error);
      }
      var i := found.value;
      DistinctByRemoveAt(context.paymentDevices, PaymentDeviceKey, i);
      if DevicesReferToPaymentDevices(context.devices, context.paymentDevices) {
        DeleteKeepsDeviceTerminals(context.devices, context.paymentDevices, i);
      }
      context.paymentDevices := RemoveAt(context.paymentDevices, i);
      r := Ok;
    }
  }
}
