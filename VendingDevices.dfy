/**
 * VendingDeviceService: a user's vending-machine models. Nothing is
 * validated on create or update; a vending device cannot be deleted while an
 * installed device refers to it.
 */
module VendingDevices {
  import opened Entities
  import opened Linq
  import opened Store

  /** One row of GetAll's result (GetAllVendingDevicesViewModel). */
  datatype VendingDeviceListItem = VendingDeviceListItem(id: int, manufacturer: string, model: string)

  function ListItem(v: VendingDevice): VendingDeviceListItem
  {
    VendingDeviceListItem(v.id, v.data.manufacturer, v.data.model)
  }

  /** FindVendingDevice: the row (its position) holding vending device `id`. */
  function FindVendingDevice(vendingDevices: seq<VendingDevice>, id: int): (r: Result<nat>)
    ensures r.Success? ==> r.value < |vendingDevices| && vendingDevices[r.value].id == id
    ensures r.Failure? <==> forall v :: v in vendingDevices ==> v.id != id
    ensures r.Failure? ==> r.error == InvalidVendingDeviceId
  {
    match FirstIndex(vendingDevices, (v: VendingDevice) => v.id == id)
    case None => Failure(InvalidVendingDeviceId)
    case Some(i) => Success(i)
  }

  /** Get: manufacturer, model and software version of vending device `id`. */
  function Get(vendingDevices: seq<VendingDevice>, id: int): (r: Result<VendingDeviceData>)
    ensures r.Failure? <==> forall v :: v in vendingDevices ==> v.id != id
    ensures r.Failure? ==> r.error == InvalidVendingDeviceId
    ensures r.Success? ==> exists v :: v in vendingDevices && v.id == id && v.data == r.value
  {
    match FindVendingDevice(vendingDevices, id)
    case Failure(e) => Failure(e)
    case Success(i) => Success(vendingDevices[i].data)
  }

  /** GetAll: exactly the caller's vending devices, projected to list rows. */
  function GetAll(vendingDevices: seq<VendingDevice>, userId: int): (r: seq<VendingDeviceListItem>)
    ensures forall v :: v in vendingDevices && v.userId == userId ==> ListItem(v) in r
    ensures forall item :: item in r ==> exists v :: v in vendingDevices && v.userId == userId && item == ListItem(v)
  {
    Select(Where(vendingDevices, (v: VendingDevice) => v.userId == userId), ListItem)
  }

  /** Round trip: a created vending device is found under its new id with the fields given. */
  lemma GetAfterCreate(vendingDevices: seq<VendingDevice>, next: int, userId: int, model: VendingDeviceData)
    requires Keyed(vendingDevices, VendingDeviceKey, next)
    ensures Get(vendingDevices + [VendingDevice(next, userId, model)], next) == Success(model)
  {
  }

  /** Round trip: after an update, Get returns exactly the fields written. */
  lemma GetAfterUpdate(vendingDevices: seq<VendingDevice>, i: nat, model: VendingDeviceData)
    requires DistinctBy(vendingDevices, VendingDeviceKey) && i < |vendingDevices|
    ensures Get(vendingDevices[i := vendingDevices[i].(data := model)], vendingDevices[i].id) == Success(model)
  {
    var updated := vendingDevices[i := vendingDevices[i].(data := model)];
    DistinctByUpdate(vendingDevices, VendingDeviceKey, i, updated[i]);
    var j := FindVendingDevice(updated, vendingDevices[i].id).value;
    DistinctKeyDetermines(updated, VendingDeviceKey, updated[i], updated[j]);
  }

  /** Deleting an unreferenced vending device leaves every installation's machine in place. */
  lemma DeleteKeepsDeviceMachines(devices: seq<Device>, vendingDevices: seq<VendingDevice>, i: nat)
    requires DistinctBy(vendingDevices, VendingDeviceKey) && i < |vendingDevices|
    requires DevicesReferToVendingDevices(devices, vendingDevices)
    requires forall d :: d in devices ==> d.data.vendingDeviceId != vendingDevices[i].id
    ensures DevicesReferToVendingDevices(devices, RemoveAt(vendingDevices, i))
  {
    DistinctByRemoveAt(vendingDevices, VendingDeviceKey, i);
  }

  class VendingDeviceService {
    const context: VendingDbContext

    constructor (context: VendingDbContext)
      ensures this.context == context
    {
      this.context := context;
    }

    /** Create: always appends one vending device owned by the caller with the three fields copied. */
    method Create(model: VendingDeviceData, userId: int)
      requires context.Valid()
      modifies context`vendingDevices, context`nextVendingDeviceId
      ensures context.Valid()
      ensures context.vendingDevices
              == old(context.vendingDevices) + [VendingDevice(old(context.nextVendingDeviceId), userId, model)]
      ensures context.nextVendingDeviceId == old(context.nextVendingDeviceId) + 1
    {
      var vendingDevice := VendingDevice(context.nextVendingDeviceId, userId, model);
      DistinctByAppend(context.vendingDevices, VendingDeviceKey, vendingDevice);
      context.vendingDevices := context.vendingDevices + [vendingDevice];
      context.nextVendingDeviceId := context.nextVendingDeviceId + 1;
    }

    /** Update: refused for an unknown id; otherwise overwrites the three data fields, keeping id and owner. */
    method Update(id: int, model: VendingDeviceData) returns (r: Outcome)
      requires context.Valid()
      modifies context`vendingDevices
      ensures context.Valid()
      ensures match FindVendingDevice(old(context.vendingDevices), id)
        case Failure(_) =>
          r == Fail(InvalidVendingDeviceId) && context.vendingDevices == old(context.vendingDevices)
        case Success(i) =>
          r == Ok && context.vendingDevices == old(context.vendingDevices)[i := old(context.vendingDevices)[i].(data := model)]
    {
      var found := FindVendingDevice(context.vendingDevices, id);
      if found.Failure? {
        return Fail(found.error);
      }
      var i := found.value;
      var vendingDevice := context.vendingDevices[i].(data := model);
      DistinctByUpdate(context.vendingDevices, VendingDeviceKey, i, vendingDevice);
      context.vendingDevices := context.vendingDevices[i := vendingDevice];
      r := Ok;
    }

    /**
     * Delete: refused while an installed device refers to the vending device
     * (checked before the id is looked up), then for an unknown id;
     * otherwise removes exactly that vending device.
     */
    method Delete(id: int) returns (r: Outcome)
      requires context.Valid()
      modifies context`vendingDevices
      ensures context.Valid()
      ensures r == Ok || r == Fail(VendingDeviceInUse) || r == Fail(InvalidVendingDeviceId)
      ensures r == Fail(VendingDeviceInUse) <==> exists d :: d in context.devices && d.data.vendingDeviceId == id
      ensures r == Fail(InvalidVendingDeviceId)
          <==> (forall d :: d in context.devices ==> d.data.vendingDeviceId != id)
               && FindVendingDevice(old(context.vendingDevices), id).Failure?
      ensures r.Fail? ==> context.vendingDevices == old(context.vendingDevices)
      ensures r.Ok? ==> context.vendingDevices
                        == RemoveAt(old(context.vendingDevices), FindVendingDevice(old(context.vendingDevices), id).value)
      ensures r.Ok? ==> forall v :: v in context.vendingDevices <==> v in old(context.vendingDevices) && v.id != id
      ensures r.Ok? && DevicesReferToVendingDevices(context.devices, old(context.vendingDevices))
        ==> DevicesReferToVendingDevices(context.devices, context.vendingDevices)
    {
      if Any(context.devices, (d: Device) => d.data.vendingDeviceId == id) {
        return Fail(VendingDeviceInUse);
      }
      var found := FindVendingDevice(context.vendingDevices, id);
      if found.Failure? {
        return Fail(found.error);
      }
      var i := found.value;
      DistinctByRemoveAt(context.vendingDevices, VendingDeviceKey, i);
      if DevicesReferToVendingDevices(context.devices, context.vendingDevices) {
        DeleteKeepsDeviceMachines(context.devices, context.vendingDevices, i);
      }
      context.vendingDevices := RemoveAt(context.vendingDevices, i);
      r := Ok;
    }
  }
}
