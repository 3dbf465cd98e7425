/**
 * VendingProductService: a user's product catalogue, unique per user by PLU,
 * whose products cannot be deleted once a transaction has sold them.
 */
module VendingProducts {
  import opened Entities
  import opened Linq
  import opened Store

  /** One row of GetAll's result (GetAllVendingProductsViewModel). */
  datatype ProductListItem = ProductListItem(id: int, description: string, name: string)

  function ListItem(p: VendingProduct): ProductListItem
  {
    ProductListItem(p.id, p.data.description, p.data.name)
  }

  /** ValidatePLU: the write is refused when a row other than `id` of the same user has the PLU. */
  function ValidatePLU(products: seq<VendingProduct>, id: int, userId: int, plu: string): (r: Outcome)
    ensures r == Ok || r == Fail(PluExists)
    ensures r.Fail? <==> exists p :: p in products && p.id != id && PluKey(p) == (userId, plu)
  {
    if Any(products, (p: VendingProduct) => p.id != id && p.userId == userId && p.data.plu == plu)
    then Fail(PluExists)
    else Ok
  }

  /** FindVendingProduct: the row (its position) holding product `id`. */
  function FindVendingProduct(products: seq<VendingProduct>, id: int): (r: Result<nat>)
    ensures r.Success? ==> r.value < |products| && products[r.value].id == id
    ensures r.Failure? <==> forall p :: p in products ==> p.id != id
    ensures r.Failure? ==> r.error == InvalidVendingProductId
  {
    match FirstIndex(products, (p: VendingProduct) => p.id == id)
    case None => Failure(InvalidVendingProductId)
    case Some(i) => Success(i)
  }

  /** Get: PLU, category, description and name of product `id`. */
  function Get(products: seq<VendingProduct>, id: int): (r: Result<VendingProductData>)
    ensures r.Failure? <==> forall p :: p in products ==> p.id != id
    ensures r.Failure? ==> r.error == InvalidVendingProductId
    ensures r.Success? ==> exists p :: p in products && p.id == id && p.data == r.value
  {
    match FindVendingProduct(products, id)
    case Failure(e) => Failure(e)
    case Success(i) => Success(products[i].data)
  }

  /** GetAll: exactly the caller's products, projected to list rows. */
  function GetAll(products: seq<VendingProduct>, userId: int): (r: seq<ProductListItem>)
    ensures forall p :: p in products && p.userId == userId ==> ListItem(p) in r
    ensures forall item :: item in r ==> exists p :: p in products && p.userId == userId && item == ListItem(p)
  {
    Select(Where(products, (p: VendingProduct) => p.userId == userId), ListItem)
  }

  /** On create the exclusion id -1 matches no row: only the user's PLUs count. */
  lemma CreateValidationIgnoresExclusion(products: seq<VendingProduct>, next: int, userId: int, plu: string)
    requires Keyed(products, VendingProductKey, next)
    ensures ValidatePLU(products, -1, userId, plu).Fail?
        <==> exists p :: p in products && PluKey(p) == (userId, plu)
  {
    if exists p :: p in products && PluKey(p) == (userId, plu) {
      var p :| p in products && PluKey(p) == (userId, plu);
      assert VendingProductKey(p) > 0;
    }
  }

  /** The same PLU under another user never conflicts. */
  lemma PluScopedByOwner(products: seq<VendingProduct>, other: VendingProduct, id: int, userId: int, plu: string)
    requires other.userId != userId
    ensures ValidatePLU(products + [other], id, userId, plu) == ValidatePLU(products, id, userId, plu)
  {
    assert forall p :: p in products + [other] && p.userId == userId ==> p in products;
  }

  /** Re-saving a product with its own PLU never conflicts with itself. */
  lemma UpdateNeverConflictsWithItself(products: seq<VendingProduct>, i: nat)
    requires DistinctBy(products, PluKey) && i < |products|
    ensures ValidatePLU(products, products[i].id, products[i].userId, products[i].data.plu) == Ok
  {
    var me := products[i];
    forall p | p in products && PluKey(p) == PluKey(me)
      ensures p.id == me.id
    {
      DistinctKeyDetermines(products, PluKey, p, me);
    }
  }

  /** A validated create keeps ids and (owner, PLU) unique. */
  lemma CreateKeepsKeys(products: seq<VendingProduct>, next: int, userId: int, model: VendingProductData)
    requires Keyed(products, VendingProductKey, next) && DistinctBy(products, PluKey)
    requires ValidatePLU(products, -1, userId, model.plu) == Ok
    ensures Keyed(products + [VendingProduct(next, userId, model)], VendingProductKey, next + 1)
    ensures DistinctBy(products + [VendingProduct(next, userId, model)], PluKey)
  {
    var p := VendingProduct(next, userId, model);
    DistinctByAppend(products, VendingProductKey, p);
    CreateValidationIgnoresExclusion(products, next, userId, model.plu);
    DistinctByAppend(products, PluKey, p);
  }

  /** A validated update keeps ids and (owner, PLU) unique. */
  lemma UpdateKeepsKeys(products: seq<VendingProduct>, next: int, i: nat, model: VendingProductData)
    requires Keyed(products, VendingProductKey, next) && DistinctBy(products, PluKey) && i < |products|
    requires ValidatePLU(products, products[i].id, products[i].userId, model.plu) == Ok
    ensures Keyed(products[i := products[i].(data := model)], VendingProductKey, next)
    ensures DistinctBy(products[i := products[i].(data := model)], PluKey)
  {
    var p := products[i].(data := model);
    forall j | 0 <= j < |products| && j != i
      ensures PluKey(products[j]) != PluKey(p)
    {
      assert products[j].id != products[i].id;
    }
    DistinctByUpdate(products, PluKey, i, p);
    DistinctByUpdate(products, VendingProductKey, i, p);
  }

  /** Round trip: a created product is found under its new id with the fields given. */
  lemma GetAfterCreate(products: seq<VendingProduct>, next: int, userId: int, model: VendingProductData)
    requires Keyed(products, VendingProductKey, next)
    ensures Get(products + [VendingProduct(next, userId, model)], next) == Success(model)
  {
  }

  /** Round trip: after an update, Get returns exactly the fields written. */
  lemma GetAfterUpdate(products: seq<VendingProduct>, i: nat, model: VendingProductData)
    requires DistinctBy(products, VendingProductKey) && i < |products|
    ensures Get(products[i := products[i].(data := model)], products[i].id) == Success(model)
  {
    var updated := products[i := products[i].(data := model)];
    DistinctByUpdate(products, VendingProductKey, i, updated[i]);
    var j := FindVendingProduct(updated, products[i].id).value;
    DistinctKeyDetermines(updated, VendingProductKey, updated[i], updated[j]);
  }

  class VendingProductService {
    const context: VendingDbContext

    constructor (context: VendingDbContext)
      ensures this.context == context
    {
      this.context := context;
    }

    /**
     * Create: refused when the caller already has a product with this PLU;
     * otherwise appends one product owned by the caller.
     */
    method Create(model: VendingProductData, userId: int) returns (r: Outcome)
      requires context.Valid()
      modifies context`vendingProducts, context`nextVendingProductId
      ensures context.Valid()
      ensures r == Ok || r == Fail(PluExists)
      ensures r.Fail? <==> exists p :: p in old(context.vendingProducts) && PluKey(p) == (userId, model.plu)
      ensures r.Fail? ==> (context.vendingProducts == old(context.vendingProducts)
                           && context.nextVendingProductId == old(context.nextVendingProductId))
      ensures r.Ok? ==> context.vendingProducts
                        == old(context.vendingProducts) + [VendingProduct(old(context.nextVendingProductId), userId, model)]
      ensures r.Ok? ==> context.nextVendingProductId == old(context.nextVendingProductId) + 1
    {
      CreateValidationIgnoresExclusion(context.vendingProducts, context.nextVendingProductId, userId, model.plu);
      r := ValidatePLU(context.vendingProducts, -1, userId, model.plu);
      if r.Fail? {
        return;
      }
      var product := VendingProduct(context.nextVendingProductId, userId, model);
      CreateKeepsKeys(context.vendingProducts, context.nextVendingProductId, userId, model);
      ProductsKeptForSales(context.transactions, context.devices, context.vendingProducts,
                           context.vendingProducts + [product]);
      context.vendingProducts := context.vendingProducts + [product];
      context.nextVendingProductId := context.nextVendingProductId + 1;
    }

    /**
     * Update: refused for an unknown id, then when another product of the
     * STORED owner has the new PLU; otherwise overwrites PLU, category,
     * description and name, keeping id and owner.
     */
    method Update(id: int, model: VendingProductData) returns (r: Outcome)
      requires context.Valid()
      modifies context`vendingProducts
      ensures context.Valid()
      ensures match FindVendingProduct(old(context.vendingProducts), id)
        case Failure(_) =>
          r == Fail(InvalidVendingProductId) && context.vendingProducts == old(context.vendingProducts)
        case Success(i) =>
          var before := old(context.vendingProducts);
          r == ValidatePLU(before, id, before[i].userId, model.plu)
          && context.vendingProducts == (if r.Ok? then before[i := before[i].(data := model)] else before)
    {
      var found := FindVendingProduct(context.vendingProducts, id);
      if found.Failure? {
        return Fail(found.error);
      }
      var i := found.value;
      var product := context.vendingProducts[i];
      r := ValidatePLU(context.vendingProducts, id, product.userId, model.plu);
      if r.Fail? {
        return;
      }
      UpdateKeepsKeys(context.vendingProducts, context.nextVendingProductId, i, model);
      var updated := context.vendingProducts[i := product.(data := model)];
      forall p | p in context.vendingProducts
        ensures p in updated || exists q :: q in updated && q.id == p.id && q.userId == p.userId
      {
        var k :| 0 <= k < |context.vendingProducts| && context.vendingProducts[k] == p;
        assert updated[k].id == p.id && updated[k].userId == p.userId;
      }
      ProductsKeptForSales(context.transactions, context.devices, context.vendingProducts, updated);
      context.vendingProducts := updated;
    }

    /**
     * Delete: refused while a transaction sold the product (checked before
     * the id is looked up), then for an unknown id; otherwise removes exactly
     * that product.
     */
    method Delete(id: int) returns (r: Outcome)
      requires context.Valid()
      modifies context`vendingProducts
      ensures context.Valid()
      ensures r == Ok || r == Fail(VendingProductInUse) || r == Fail(InvalidVendingProductId)
      ensures r == Fail(VendingProductInUse) <==> exists t :: t in context.transactions && t.vendingProductId == id
      ensures r == Fail(InvalidVendingProductId)
          <==> (forall t :: t in context.transactions ==> t.vendingProductId != id)
               && FindVendingProduct(old(context.vendingProducts), id).Failure?
      ensures r.Fail? ==> context.vendingProducts == old(context.vendingProducts)
      ensures r.Ok? ==> context.vendingProducts
                        == RemoveAt(old(context.vendingProducts), FindVendingProduct(old(context.vendingProducts), id).value)
      ensures r.Ok? ==> forall p :: p in context.vendingProducts <==> p in old(context.vendingProducts) && p.id != id
    {
      if Any(context.transactions, (t: Transaction) => t.vendingProductId == id) {
        return Fail(VendingProductInUse);
      }
      var found := FindVendingProduct(context.vendingProducts, id);
      if found.Failure? {
        return Fail(found.error);
      }
      var i := found.value;
      DistinctByRemoveAt(context.vendingProducts, VendingProductKey, i);
      DistinctByRemoveAt(context.vendingProducts, PluKey, i);
      ProductsKeptForSales(context.transactions, context.devices, context.vendingProducts,
                           RemoveAt(context.vendingProducts, i));
      context.vendingProducts := RemoveAt(context.vendingProducts, i);
      r := Ok;
    }
  }
}
